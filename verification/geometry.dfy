/** Axis-aligned boxes as `getBBox` reports them, and their intersection (script.js:73-79). */
module Geometry {
  import opened Wrappers
  import opened JsNumbers

  /** A measured bounding box: top-left corner and extent, in canvas pixels. */
  datatype Box = Box(x: real, y: real, width: real, height: real) {
    function Right(): real { x + width }
    function Bottom(): real { y + height }
  }

  /** The standard overlap test with strictly positive area: both boxes have positive
      extent and each starts before the other ends, on both axes. */
  predicate Overlaps(a: Box, b: Box) {
    && 0.0 < a.width && 0.0 < b.width && 0.0 < a.height && 0.0 < b.height
    && a.x < b.Right() && b.x < a.Right()
    && a.y < b.Bottom() && b.y < a.Bottom()
  }

  /** `inner` lies inside `outer` (edges may touch). */
  predicate Contains(outer: Box, inner: Box) {
    && outer.x <= inner.x && inner.Right() <= outer.Right()
    && outer.y <= inner.y && inner.Bottom() <= outer.Bottom()
  }

  /** The point (px, py) lies in the closed box. */
  predicate HasPoint(b: Box, px: real, py: real) {
    b.x <= px <= b.Right() && b.y <= py <= b.Bottom()
  }

  /** The point (px, py) lies strictly inside the box. */
  predicate HasInnerPoint(b: Box, px: real, py: real) {
    b.x < px < b.Right() && b.y < py < b.Bottom()
  }

  /** `intersectRect(a, b)`: null when either box is missing or the overlap has no positive
      area; otherwise a box of positive extent that lies inside both inputs. */
  function IntersectRect(a: Option<Box>, b: Option<Box>): (r: Option<Box>)
    ensures r.Some? <==> a.Some? && b.Some? && Overlaps(a.value, b.value)
    ensures r.Some? ==> 0.0 < r.value.width && 0.0 < r.value.height
    ensures r.Some? ==> Contains(a.value, r.value) && Contains(b.value, r.value)
  {
    if a.None? || b.None? then None
    else
      var p, q := a.value, b.value;
      var x1, y1 := Max(p.x, q.x), Max(p.y, q.y);
      var x2, y2 := Min(p.Right(), q.Right()), Min(p.Bottom(), q.Bottom());
      if x2 <= x1 || y2 <= y1 then None
      else Some(Box(x1, y1, x2 - x1, y2 - y1))
  }

  /** The intersection does not depend on the order of its arguments. */
  lemma IntersectSymmetric(a: Option<Box>, b: Option<Box>)
    ensures IntersectRect(a, b) == IntersectRect(b, a)
  {
  }

  /** The intersection is exactly the common part of the two boxes: a point is in it if and only
      if it is in both; and when there is none, no point lies strictly inside both. */
  lemma IntersectIsCommonPart(a: Box, b: Box)
    ensures IntersectRect(Some(a), Some(b)).Some? ==>
      forall px, py :: HasPoint(IntersectRect(Some(a), Some(b)).value, px, py) <==> HasPoint(a, px, py) && HasPoint(b, px, py)
    ensures IntersectRect(Some(a), Some(b)).None? ==>
      forall px, py :: !(HasInnerPoint(a, px, py) && HasInnerPoint(b, px, py))
  {
  }

  /** A box (0, 0, 100, 20) and a box (50, 10, 100, 20) overlap in (50, 10, 50, 10). */
  lemma IntersectExample()
    ensures IntersectRect(Some(Box(0.0, 0.0, 100.0, 20.0)), Some(Box(50.0, 10.0, 100.0, 20.0)))
         == Some(Box(50.0, 10.0, 50.0, 10.0))
  {
    var p, q := Box(0.0, 0.0, 100.0, 20.0), Box(50.0, 10.0, 100.0, 20.0);
    var x1, y1 := Max(p.x, q.x), Max(p.y, q.y);
    var x2, y2 := Min(p.Right(), q.Right()), Min(p.Bottom(), q.Bottom());
    assert x1 == 50.0 && y1 == 10.0 && x2 == 100.0 && y2 == 20.0;
  }
}
