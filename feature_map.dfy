/** Size of the shared feature map that the backbone produces for an input image
    side: four stride-2 layers, each mapping a length L to (L + 2p - f) // 2 + 1. */
module FeatureMap {
  import opened Arith

  /** Filter size and padding of each of the four stride-2 layers. */
  const FilterSizes: seq<int> := [7, 3, 1, 1]
  const Paddings: seq<int> := [3, 1, 0, 0]
  const Stride: int := 2

  /** Ceiling of n / d.  Dafny's `/` with a positive divisor is floor division,
      like Python's `//`, so this is exact for negative n too. */
  function CeilDiv(n: int, d: int): int
    requires d > 0
  {
    (n + d - 1) / d
  }

  function Pow2(k: nat): (p: int)
    ensures p >= 1
  {
    if k == 0 then 1 else 2 * Pow2(k - 1)
  }

  /** Output length of one layer with the given filter size and padding. */
  function LayerOutput(length: int, filter: int, padding: int): int
  {
    (length + 2 * padding - filter) / Stride + 1
  }

  /** Every one of the four layers halves its input, rounding up. */
  lemma LayerIsCeilHalf(length: int, i: nat)
    requires i < |FilterSizes|
    ensures LayerOutput(length, FilterSizes[i], Paddings[i]) == CeilDiv(length, 2)
  {
  }

  /** Rounding up twice: ceil(ceil(n / d) / 2) == ceil(n / (2 d)). */
  lemma CeilDivTwice(n: int, d: int)
    requires d > 0
    ensures CeilDiv(CeilDiv(n, d), 2) == CeilDiv(n, 2 * d)
  {
    var x := n + d - 1;
    var q, r := x / d, x % d;
    assert x == q * d + r && 0 <= r < d;
    var m, s := (q + 1) / 2, (q + 1) % 2;
    assert q + 1 == 2 * m + s;
    assert n + 2 * d - 1 == m * (2 * d) + (s * d + r) by {
      assert n + 2 * d - 1 == (q + 1) * d + r;
      assert (q + 1) * d == (2 * m + s) * d;
      assert (2 * m + s) * d == m * (2 * d) + s * d;
    }
    assert 0 <= s * d + r < 2 * d;
    DivIsUnique(n + 2 * d - 1, 2 * d, m, s * d + r);
  }

  /** get_output_length: runs the four layers in a loop and returns
      ceil(L / 16), for every integer L. */
  method GetOutputLength(inputLength: int) returns (r: int)
    ensures r == CeilDiv(inputLength, 16)
  {
    var length := inputLength;
    for i := 0 to 4
      invariant length == CeilDiv(inputLength, Pow2(i))
    {
      LayerIsCeilHalf(length, i);
      CeilDivTwice(inputLength, Pow2(i));
      length := LayerOutput(length, FilterSizes[i], Paddings[i]);
    }
    r := length;
  }

  /** A longer side never yields a shorter feature map. */
  lemma OutputLengthMonotone(a: int, b: int)
    requires a <= b
    ensures CeilDiv(a, 16) <= CeilDiv(b, 16)
  {
  }

  /** The feature map is non-empty exactly for a non-empty side, and empty for 0. */
  lemma OutputLengthPositive(length: int)
    requires length >= 0
    ensures CeilDiv(length, 16) >= 1 <==> length >= 1
    ensures length == 0 ==> CeilDiv(length, 16) == 0
    ensures CeilDiv(length, 16) <= length
  {
  }
}
