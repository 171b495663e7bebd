/** Facts about Euclidean division that the size computations rest on. */
module Arith {

  function Max(a: int, b: int): int { if a >= b then a else b }
  function Min(a: int, b: int): int { if a <= b then a else b }

  lemma MulMonotone(x: int, y: int, b: int)
    requires x <= y && b > 0
    ensures x * b <= y * b
  {
    assert y * b - x * b == (y - x) * b;
  }

  /** Floor division is determined by quotient and remainder bounds. */
  lemma DivIsUnique(a: int, b: int, q: int, r: int)
    requires b > 0 && a == q * b + r && 0 <= r < b
    ensures a / b == q
  {
    var q', r' := a / b, a % b;
    assert a == q' * b + r';
    if q' > q {
      assert q' * b >= (q + 1) * b by { MulMonotone(q + 1, q', b); }
    } else if q' < q {
      assert q * b >= (q' + 1) * b by { MulMonotone(q' + 1, q, b); }
    }
  }

  /** Adding the divisor adds one to the quotient. */
  lemma DivPlusDivisor(a: int, b: int)
    requires b > 0
    ensures (a + b) / b == a / b + 1
  {
    DivIsUnique(a + b, b, a / b + 1, a % b);
  }
}
