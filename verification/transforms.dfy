/** Transform lists and the two operations that extend them: fitting a run to a width budget
    (script.js:99-113) and random distortion (script.js:116-148). A transform attribute is an
    ordered list of typed operations; every edit only appends to it. */
module Transforms {
  import opened Wrappers
  import opened JsNumbers
  import opened Rand
  import opened Geometry

  datatype Op =
    | Translate(tx: real, ty: real)
    | Rotate(deg: real)
    | RotateAbout(deg: real, cx: real, cy: real)
    | Scale(sx: real, sy: real)
    | SkewX(deg: real)
      /** A bare number written into the attribute (`transform="90"`), which is not a transform. */
    | Bare(n: int)

  /** A transform attribute: the empty list is "no attribute". */
  type Transform = seq<Op>

  /** The transform left by passing the number `n` where a transform string is expected:
      `0` is falsy, so no attribute is set; any other number is written as it stands. */
  function BareTransform(n: int): (t: Transform)
    ensures t == [] <==> n == 0
    ensures n != 0 ==> t == [Bare(n)]
    ensures forall k :: 0 <= k < |t| ==> t[k].Bare? && t[k].n != 0
  {
    if n == 0 then [] else [Bare(n)]
  }

  // ---------------------------------------------------------------- fit to width

  /** The three operations that squeeze a box horizontally to `maxWidth` about its own
      top-left corner, leaving the vertical untouched. */
  predicate SqueezesTo(ops: Transform, b: Box, maxWidth: real) {
    && |ops| == 3
    && ops[0] == Translate(b.x, b.y)
    && ops[1].Scale? && ops[1].sy == 1.0
    && ops[1].sx * b.width == maxWidth && 0.0 <= ops[1].sx < 1.0
    && ops[2] == Translate(-b.x, -b.y)
  }

  /** `fitTextToWidth(el, maxWidth, allowScaleX)`: nothing changes when the box is unavailable,
      already fits, or horizontal scaling is not allowed; otherwise exactly one squeeze is
      appended after the previous transform. */
  function FitTextToWidth(prev: Transform, box: Option<Box>, maxWidth: real, allowScaleX: bool): (r: Transform)
    requires maxWidth >= 0.0
    ensures box.None? || box.value.width <= maxWidth || !allowScaleX ==> r == prev
    ensures box.Some? && box.value.width > maxWidth && allowScaleX ==>
      |r| == |prev| + 3 && r[..|prev|] == prev && SqueezesTo(r[|prev|..], box.value, maxWidth)
    ensures box.Some? && box.value.width > maxWidth && allowScaleX && maxWidth > 0.0 ==>
      0.0 < r[|prev| + 1].sx < 1.0
  {
    if box.None? then prev
    else
      var b := box.value;
      if b.width <= maxWidth then prev
      else
        var sx := maxWidth / b.width;
        if !allowScaleX then prev
        else
          assert sx * b.width == maxWidth;
          assert sx < 1.0;
          prev + [Translate(b.x, b.y), Scale(sx, 1.0), Translate(-b.x, -b.y)]
  }

  // ---------------------------------------------------------------- distortion

  /** Intensity of a distortion, chosen by the second roll. */
  datatype Tier = Subtle | Strong | Extreme

  /** The tier a roll selects: below 0.6 subtle, below 0.9 strong, otherwise extreme. */
  function TierOf(roll: real): Tier {
    if roll < 0.6 then Subtle else if roll < 0.9 then Strong else Extreme
  }

  /** The caller's limits: `applyDistortion(el, maxScaleY, minScaleX, maxSkew)`. */
  datatype Limits = Limits(maxScaleY: real, minScaleX: real, maxSkew: real)

  /** The limits every call site passes (and the defaults): 3.5, 0.25 and 18 degrees. */
  const DefaultLimits := Limits(3.5, 0.25, 18.0)

  /** Below this first roll no distortion is applied. */
  const KeepBelow: real := 0.45

  /** A half-open range [lo, hi) a value is drawn from. */
  datatype Span = Span(lo: real, hi: real) {
    predicate Holds(v: real) { Within(v, lo, hi) }
  }

  function ScaleYSpan(t: Tier, lim: Limits): Span {
    match t
    case Subtle => Span(1.0, 1.6)
    case Strong => Span(1.6, Min(2.4, lim.maxScaleY))
    case Extreme => Span(2.4, lim.maxScaleY)
  }

  function ScaleXSpan(t: Tier, lim: Limits): Span {
    match t
    case Subtle => Span(0.8, 1.0)
    case Strong => Span(Max(lim.minScaleX, 0.45), 0.85)
    case Extreme => Span(lim.minScaleX, 0.55)
  }

  function SkewSpan(t: Tier, lim: Limits): Span {
    match t
    case Subtle => Span(-6.0, 6.0)
    case Strong => Span(-12.0, 12.0)
    case Extreme => Span(-lim.maxSkew, lim.maxSkew)
  }

  /** The centre of a box. */
  function Centre(b: Box): (real, real) {
    (b.x + b.width / 2.0, b.y + b.height / 2.0)
  }

  /** The four operations of a distortion of tier `t` about the centre of `b`, in the order the
      attribute lists them: translate to the centre, skew, scale, translate back, each amount
      inside the tier's range. */
  predicate DistortsAbout(ops: Transform, b: Box, t: Tier, lim: Limits) {
    var (cx, cy) := Centre(b);
    && |ops| == 4
    && ops[0] == Translate(cx, cy)
    && ops[1].SkewX? && SkewSpan(t, lim).Holds(ops[1].deg)
    && ops[2].Scale? && ScaleXSpan(t, lim).Holds(ops[2].sx) && ScaleYSpan(t, lim).Holds(ops[2].sy)
    && ops[3] == Translate(-cx, -cy)
  }

  /** A transform after a distortion, with the position of the next unused roll. */
  datatype Distorted = Distorted(transform: Transform, next: nat)

  /** `applyDistortion(el, ...)` reading its rolls from `src` starting at `at`. A first roll below
      0.45 returns at once; otherwise four more rolls are drawn (tier, scaleY, scaleX, skew)
      BEFORE the box is measured, and a missing box then leaves the transform unchanged. */
  function ApplyDistortion(prev: Transform, box: Option<Box>, lim: Limits, src: Entropy, at: nat): (r: Distorted)
    ensures src(at) < KeepBelow ==> r.transform == prev && r.next == at + 1
    ensures src(at) >= KeepBelow ==> r.next == at + 5
    ensures src(at) >= KeepBelow && box.None? ==> r.transform == prev
    ensures src(at) >= KeepBelow && box.Some? ==>
      |r.transform| == |prev| + 4 && r.transform[..|prev|] == prev
      && DistortsAbout(r.transform[|prev|..], box.value, TierOf(src(at + 1)), lim)
  {
    if src(at) < KeepBelow then Distorted(prev, at + 1)
    else
      var tier := TierOf(src(at + 1));
      var sy, sxSpan, kSpan := ScaleYSpan(tier, lim), ScaleXSpan(tier, lim), SkewSpan(tier, lim);
      var scaleY := RndRange(sy.lo, sy.hi, src(at + 2));
      var scaleX := RndRange(sxSpan.lo, sxSpan.hi, src(at + 3));
      var skew := RndRange(kSpan.lo, kSpan.hi, src(at + 4));
      if box.None? then Distorted(prev, at + 5)
      else
        var (cx, cy) := Centre(box.value);
        Distorted(prev + [Translate(cx, cy), SkewX(skew), Scale(scaleX, scaleY), Translate(-cx, -cy)], at + 5)
  }

  /** With the limits every call site uses, a distortion never flips or flattens the text:
      the vertical scale is at least 1 and the horizontal scale at least 0.25. */
  lemma DefaultDistortionKeepsOrientation(b: Box, t: Tier, ops: Transform)
    requires DistortsAbout(ops, b, t, DefaultLimits)
    ensures ops[2].sy >= 1.0 && ops[2].sx >= 0.25
    ensures -18.0 <= ops[1].deg < 18.0
  {
  }

  // ---------------------------------------------------------------- meaning of the operations

  datatype Point = Point(x: real, y: real)

  /** A product, kept as a named term so that equal factors give equal products. */
  function Times(k: real, v: real): real { k * v }

  /** Where one operation sends a point, for the operations that need no trigonometry beyond a
      supplied tangent; rotations and bare numbers have no meaning here. */
  function MapPoint(op: Op, p: Point, tan: real -> real): Option<Point> {
    match op
    case Translate(tx, ty) => Some(Point(p.x + tx, p.y + ty))
    case Scale(sx, sy) => Some(Point(Times(sx, p.x), Times(sy, p.y)))
    case SkewX(d) => Some(Point(p.x + Times(tan(d), p.y), p.y))
    case _ => None
  }

  /** An SVG transform list applied to a point: the last operation acts first. */
  function MapAll(ops: Transform, p: Point, tan: real -> real): Option<Point>
    decreases |ops|
  {
    if ops == [] then Some(p)
    else
      match MapPoint(ops[|ops| - 1], p, tan)
      case None => None
      case Some(q) => MapAll(ops[..|ops| - 1], q, tan)
  }

  /** The squeeze added by fitting keeps the box's left edge in place and brings its right
      edge to `x + maxWidth`; heights are untouched. */
  lemma {:induction false} SqueezeAnchorsLeftEdge(ops: Transform, b: Box, maxWidth: real, py: real, tan: real -> real)
    requires SqueezesTo(ops, b, maxWidth)
    ensures MapAll(ops, Point(b.x, py), tan) == Some(Point(b.x, py))
    ensures MapAll(ops, Point(b.Right(), py), tan) == Some(Point(b.x + maxWidth, py))
  {
    var sx := ops[1].sx;
    assert ops[..2][..1] == [ops[0]];
    assert MapAll(ops, Point(b.x, py), tan) == MapAll(ops[..2], Point(0.0, py - b.y), tan);
    assert Times(sx, 0.0) == 0.0;
    assert MapAll(ops[..2], Point(0.0, py - b.y), tan) == MapAll(ops[..1], Point(0.0, py - b.y), tan);
    assert MapAll(ops[..1], Point(0.0, py - b.y), tan) == MapAll([], Point(b.x, py), tan);
    assert MapAll(ops, Point(b.Right(), py), tan) == MapAll(ops[..2], Point(b.width, py - b.y), tan);
    assert Times(sx, b.width) == maxWidth;
    assert MapAll(ops[..2], Point(b.width, py - b.y), tan) == MapAll(ops[..1], Point(maxWidth, py - b.y), tan);
    assert MapAll(ops[..1], Point(maxWidth, py - b.y), tan) == MapAll([], Point(b.x + maxWidth, py), tan);
  }

  /** The operations added by a distortion leave the box's centre where it was, whatever the
      tangent of the skew angle. */
  lemma {:induction false} DistortionFixesCentre(ops: Transform, b: Box, t: Tier, lim: Limits, tan: real -> real)
    requires DistortsAbout(ops, b, t, lim)
    ensures MapAll(ops, Point(Centre(b).0, Centre(b).1), tan) == Some(Point(Centre(b).0, Centre(b).1))
  {
    var (cx, cy) := Centre(b);
    var o := Point(0.0, 0.0);
    assert ops[..3][..2] == ops[..2];
    assert ops[..2][..1] == [ops[0]];
    assert MapAll(ops, Point(cx, cy), tan) == MapAll(ops[..3], o, tan);
    assert Times(ops[2].sx, 0.0) == 0.0 && Times(ops[2].sy, 0.0) == 0.0;
    assert MapAll(ops[..3], o, tan) == MapAll(ops[..2], o, tan);
    assert Times(tan(ops[1].deg), 0.0) == 0.0;
    assert MapAll(ops[..2], o, tan) == MapAll(ops[..1], o, tan);
    assert MapAll(ops[..1], o, tan) == MapAll([], Point(cx, cy), tan);
  }
}
