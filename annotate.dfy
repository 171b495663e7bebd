/** The drawing geometry of `detect_image` for one detection: the box padded,
    rounded and clamped to the image, the frame thickness, where the label text
    goes, and the nested rectangles that make up the frame. */
module Annotate {
  import opened Arith

  /** A rectangle as PIL's `draw.rectangle` takes it: [left, top, right, bottom]. */
  datatype Rect = Rect(left: int, top: int, right: int, bottom: int)

  datatype Point = Point(x: int, y: int)

  /** Pixels added around each detected box before it is drawn. */
  const Pad: real := 5.0

  /** `np.floor(x + 0.5)`: the nearest integer to x, halves rounded up. */
  function RoundHalfUp(x: real): (r: int)
    ensures r as real <= x + 0.5 < r as real + 1.0
  {
    (x + 0.5).Floor
  }

  /** Python's `int(c)` on a float: truncation toward zero. */
  function Trunc(c: real): (r: int)
    ensures 0.0 <= c ==> 0 <= r && r as real <= c < r as real + 1.0
    ensures c < 0.0 ==> r <= 0 && r as real - 1.0 < c <= r as real
  {
    if c >= 0.0 then c.Floor else -((-c).Floor)
  }

  /** The box as drawn: each side moved out by `Pad` and rounded; then only top
      and left are clamped at 0, and only bottom and right at the image height
      and width. */
  function PlaceBox(left: real, top: real, right: real, bottom: real, height: int, width: int): (r: Rect)
    ensures r.top >= 0 && r.left >= 0 && r.bottom <= height && r.right <= width
    ensures r.top == RoundHalfUp(top - Pad) || (r.top == 0 && RoundHalfUp(top - Pad) < 0)
    ensures r.left == RoundHalfUp(left - Pad) || (r.left == 0 && RoundHalfUp(left - Pad) < 0)
    ensures r.bottom == RoundHalfUp(bottom + Pad) || (r.bottom == height && RoundHalfUp(bottom + Pad) > height)
    ensures r.right == RoundHalfUp(right + Pad) || (r.right == width && RoundHalfUp(right + Pad) > width)
  {
    Rect(Max(0, RoundHalfUp(left - Pad)), Max(0, RoundHalfUp(top - Pad)),
         Min(width, RoundHalfUp(right + Pad)), Min(height, RoundHalfUp(bottom + Pad)))
  }

  /** A box whose padded sides lie inside the image is drawn exactly at its
      padded coordinates, each within half a pixel. */
  lemma PlaceBoxInside(left: real, top: real, right: real, bottom: real, height: int, width: int)
    requires left - Pad >= 0.0 && top - Pad >= 0.0
    requires right + Pad <= width as real && bottom + Pad <= height as real
    ensures var r := PlaceBox(left, top, right, bottom, height, width);
      && (r.left + 5) as real <= left + 0.5 < (r.left + 6) as real
      && (r.top + 5) as real <= top + 0.5 < (r.top + 6) as real
      && (r.right - 5) as real <= right + 0.5 < (r.right - 4) as real
      && (r.bottom - 5) as real <= bottom + 0.5 < (r.bottom - 4) as real
  {
  }

  /** The clamps are one-sided: a box lying wholly below the image is drawn
      with its top below its bottom. */
  lemma PlaceBoxMayInvert()
    ensures var r := PlaceBox(10.0, 300.0, 20.0, 310.0, 100, 100);
      r.top == 295 && r.bottom == 100 && r.top > r.bottom
  {
  }

  /** `max((height + width) // width * 2, 1)`.  Because the quotient is
      height // width + 1, the result is always even and at least 2, so the
      lower bound 1 never takes effect. */
  function Thickness(height: nat, width: int): (t: nat)
    requires width >= 1
    ensures t >= 1
    ensures t == 2 * (height / width + 1)
  {
    Arith.DivPlusDivisor(height, width);
    Max((height + width) / width * 2, 1)
  }

  /** Where the label text goes: above the box when it fits there, otherwise
      just inside the box's top edge. */
  function TextOrigin(left: int, top: int, labelHeight: nat): (p: Point)
    ensures p.x == left
    ensures top - labelHeight >= 0 ==> p.y == top - labelHeight
    ensures top - labelHeight < 0 ==> p.y == top + 1
    ensures top >= 0 ==> p.y >= 0
  {
    if top - labelHeight >= 0 then Point(left, top - labelHeight) else Point(left, top + 1)
  }

  /** The text origin never lies below `top + 1` nor lower than the label allows. */
  lemma TextOriginBounds(left: int, top: int, labelHeight: nat)
    requires top >= 0
    ensures var p := TextOrigin(left, top, labelHeight);
      0 <= p.y <= top + 1 && (p.y <= top <==> labelHeight <= top)
  {
  }

  /** The rectangle drawn in pass i of the frame loop: inset by i on every side. */
  function Inset(r: Rect, i: int): Rect
  {
    Rect(r.left + i, r.top + i, r.right - i, r.bottom - i)
  }

  /** The rectangles of a frame of the given thickness, outermost first. */
  function Outline(r: Rect, thickness: nat): (rs: seq<Rect>)
    ensures |rs| == thickness
    ensures forall i :: 0 <= i < thickness ==> rs[i] == Inset(r, i)
  {
    seq(thickness, i requires 0 <= i < thickness => Inset(r, i))
  }

  /** Consecutive rectangles of a frame are nested one pixel apart, so the
      frame's passes are distinct rings around the box. */
  lemma OutlineNested(r: Rect, thickness: nat, i: nat, j: nat)
    requires i <= j < thickness
    ensures var rs := Outline(r, thickness);
      && rs[j].left - rs[i].left == j - i && rs[j].top - rs[i].top == j - i
      && rs[i].right - rs[j].right == j - i && rs[i].bottom - rs[j].bottom == j - i
      && rs[0] == r
  {
  }

  /** `for i in range(thickness): draw.rectangle([left + i, top + i, right - i, bottom - i])`,
      recording the rectangles in drawing order. */
  method DrawOutline(r: Rect, thickness: nat) returns (drawn: seq<Rect>)
    ensures drawn == Outline(r, thickness)
  {
    drawn := [];
    for i := 0 to thickness
      invariant drawn == Outline(r, i)
    {
      drawn := drawn + [Rect(r.left + i, r.top + i, r.right - i, r.bottom - i)];
    }
  }
}
