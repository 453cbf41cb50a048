/**
  Axis-aligned rectangles as the tracker uses them: integer `Rect` for
  detections and search windows, real-valued `Rect2f` for the smoothed box.
  Intersection follows OpenCV's `Rect_::operator&`: an operand with a
  non-positive side, or a pair that does not overlap, gives the zero rect.
 */
module Geometry {

  datatype Rect = Rect(x: int, y: int, width: int, height: int)

  datatype Point2f = Point2f(x: real, y: real)

  datatype Rect2f = Rect2f(x: real, y: real, width: real, height: real)

  /** `Rect()`: the default, zero-area rectangle that stands for "absent". */
  const EMPTY_RECT := Rect(0, 0, 0, 0)

  const EMPTY_RECT2F := Rect2f(0.0, 0.0, 0.0, 0.0)

  function Min(a: int, b: int): int { if a < b then a else b }

  function Max(a: int, b: int): int { if a < b then b else a }

  function MinF(a: real, b: real): real { if a < b then a else b }

  function MaxF(a: real, b: real): real { if a < b then b else a }

  function Area(r: Rect): int { r.width * r.height }

  function AreaF(r: Rect2f): real { r.width * r.height }

  predicate IsEmpty(r: Rect) { r.width <= 0 || r.height <= 0 }

  predicate IsEmptyF(r: Rect2f) { r.width <= 0.0 || r.height <= 0.0 }

  /** The pixel (px, py) lies in r (left and top edges inclusive, right and bottom exclusive). */
  predicate Covers(r: Rect, px: int, py: int)
  {
    r.x <= px < r.x + r.width && r.y <= py < r.y + r.height
  }

  predicate CoversF(r: Rect2f, p: Point2f)
  {
    r.x <= p.x < r.x + r.width && r.y <= p.y < r.y + r.height
  }

  /** r lies inside outer. */
  predicate Within(r: Rect, outer: Rect)
  {
    outer.x <= r.x && r.x + r.width <= outer.x + outer.width &&
    outer.y <= r.y && r.y + r.height <= outer.y + outer.height
  }

  /** `a & b` on integer rectangles. */
  function Intersect(a: Rect, b: Rect): (r: Rect)
    ensures 0 <= r.width && 0 <= r.height
    ensures forall px, py :: Covers(r, px, py) <==> Covers(a, px, py) && Covers(b, px, py)
    ensures !IsEmpty(r) ==> Within(r, a) && Within(r, b)
    ensures IsEmpty(a) || IsEmpty(b) ==> r == EMPTY_RECT
  {
    if IsEmpty(a) || IsEmpty(b) then EMPTY_RECT
    else
      var x1 := Max(a.x, b.x);
      var y1 := Max(a.y, b.y);
      var w := Min(a.x + a.width, b.x + b.width) - x1;
      var h := Min(a.y + a.height, b.y + b.height) - y1;
      if w < 0 || h < 0 then EMPTY_RECT else Rect(x1, y1, w, h)
  }

  /** `a & b` on real rectangles (`Rect2f`). */
  function IntersectF(a: Rect2f, b: Rect2f): (r: Rect2f)
    ensures 0.0 <= r.width && 0.0 <= r.height
    ensures forall p :: CoversF(r, p) <==> CoversF(a, p) && CoversF(b, p)
    ensures !IsEmptyF(r) ==>
              r.width <= a.width && r.width <= b.width && r.height <= a.height && r.height <= b.height
  {
    if IsEmptyF(a) || IsEmptyF(b) then EMPTY_RECT2F
    else
      var x1 := MaxF(a.x, b.x);
      var y1 := MaxF(a.y, b.y);
      var w := MinF(a.x + a.width, b.x + b.width) - x1;
      var h := MinF(a.y + a.height, b.y + b.height) - y1;
      if w < 0.0 || h < 0.0 then EMPTY_RECT2F else Rect2f(x1, y1, w, h)
  }

  /**
    `Rect(Point pt1, Point pt2)`: the rectangle spanned by two corners, in
    whichever order they are given.
   */
  function FromCorners(x1: int, y1: int, x2: int, y2: int): (r: Rect)
    ensures 0 <= r.width && 0 <= r.height
    ensures x1 <= x2 && y1 <= y2 ==> r == Rect(x1, y1, x2 - x1, y2 - y1)
    ensures x2 <= x1 && y2 <= y1 ==> r == Rect(x2, y2, x1 - x2, y1 - y2)
  {
    Rect(Min(x1, x2), Min(y1, y2), Max(x1, x2) - Min(x1, x2), Max(y1, y2) - Min(y1, y2))
  }

  /** The integer rectangle converted to floats, as `Rect2f det(...)` does. */
  function ToRect2f(r: Rect): Rect2f
  {
    Rect2f(r.x as real, r.y as real, r.width as real, r.height as real)
  }

  /** Intersection over union of two boxes; 0 when they share no area. */
  function RectIoU(a: Rect2f, b: Rect2f): (r: real)
    ensures 0.0 <= r <= 1.0
    ensures r > 0.0 <==> AreaF(IntersectF(a, b)) > 0.0
    ensures AreaF(IntersectF(a, b)) > 0.0 ==>
              r * (AreaF(a) + AreaF(b) - AreaF(IntersectF(a, b))) == AreaF(IntersectF(a, b))
  {
    var inter := IntersectF(a, b);
    var ia := AreaF(inter);
    if ia <= 0.0 then 0.0
    else
      var ua := AreaF(a) + AreaF(b) - ia;
      IntersectionBelowEachArea(a, b);
      RatioInUnit(ia, ua);
      if ua > 0.0 then ia / ua else 0.0
  }

  /** A positive part over a whole at least as large is a ratio in (0, 1]. */
  lemma RatioInUnit(part: real, whole: real)
    requires 0.0 < part <= whole
    ensures 0.0 < part / whole <= 1.0
    ensures part / whole * whole == part
  {
    var q := part / whole;
    assert q * whole == part;
    if q > 1.0 {
      ScaledAbove(q, whole);
    }
    if q <= 0.0 {
      ScaledBelow(q, whole);
    }
  }

  lemma ScaledAbove(q: real, w: real)
    requires q > 1.0 && w > 0.0
    ensures q * w > w
  {
    assert q * w - w == (q - 1.0) * w;
  }

  lemma ScaledBelow(q: real, w: real)
    requires q <= 0.0 && w > 0.0
    ensures q * w <= 0.0
  {
    assert -(q * w) == (-q) * w;
  }

  lemma MulMonotone(p: real, q: real, s: real, t: real)
    requires 0.0 <= p <= q && 0.0 <= s <= t
    ensures p * s <= q * t
  {
    assert p * s <= q * s;
    assert q * s <= q * t;
  }

  /** A positive overlap is no larger than either box, so the union is at least the overlap. */
  lemma IntersectionBelowEachArea(a: Rect2f, b: Rect2f)
    requires AreaF(IntersectF(a, b)) > 0.0
    ensures AreaF(IntersectF(a, b)) <= AreaF(a) && AreaF(IntersectF(a, b)) <= AreaF(b)
  {
    var i := IntersectF(a, b);
    assert !IsEmptyF(i);
    MulMonotone(i.width, a.width, i.height, a.height);
    MulMonotone(i.width, b.width, i.height, b.height);
  }

  /** IoU does not depend on the order of its arguments. */
  lemma IoUSymmetric(a: Rect2f, b: Rect2f)
    ensures RectIoU(a, b) == RectIoU(b, a)
  {
    assert IntersectF(a, b) == IntersectF(b, a);
  }

  /** A box with positive area overlaps itself completely. */
  lemma IoUSelf(a: Rect2f)
    requires a.width > 0.0 && a.height > 0.0
    ensures RectIoU(a, a) == 1.0
  {
    assert IntersectF(a, a) == a;
  }

  /** Boxes that share no point have IoU 0. */
  lemma IoUDisjoint(a: Rect2f, b: Rect2f)
    requires forall p :: !(CoversF(a, p) && CoversF(b, p))
    ensures RectIoU(a, b) == 0.0
  {
    var i := IntersectF(a, b);
    if AreaF(i) > 0.0 {
      assert CoversF(i, Point2f(i.x, i.y));
      assert false;
    }
  }
}
