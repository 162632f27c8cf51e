/** The SVG tree as an immutable list of elements in paint order (earlier paints first, so it
    lies behind), and the placement operations of script.js:82-96 and 151-184. */
module Scene {
  import opened Wrappers
  import opened JsNumbers
  import opened Geometry
  import opened Transforms

  /** A paint value: `#000`, `#fff`, `none`, or whatever a shape template brought along. */
  datatype Paint = Black | White | NoPaint | Named(css: string)

  /** The `text-anchor` values the engine writes. */
  datatype Anchor = Start | Middle

  /** A `<text>` element. */
  datatype TextRun = TextRun(
    content: string, x: real, y: real, size: real,
    anchor: Anchor, weight: int, fill: Paint, transform: Transform)

  /** One descendant of a shape: its fill, stroke and (optional) stroke width. */
  datatype Part = Part(fill: Paint, stroke: Paint, strokeWidth: Option<real>)

  /** A shape of the catalog: whether its root is a `<g>`, and all of its descendants in
      document order (what `querySelectorAll('*')` returns). */
  datatype ShapeTemplate = ShapeTemplate(isGroup: bool, parts: seq<Part>)

  /** A placed clone of a template. */
  datatype ShapeInst = ShapeInst(isGroup: bool, transform: Transform, parts: seq<Part>)

  /** A top-level element of the poster. */
  datatype Element =
    | Background(w: real, h: real)   // the opaque white rectangle covering the whole canvas
    | Text(run: TextRun)
    | Shape(shape: ShapeInst)
    | Mask(area: Box)                // an opaque white rectangle over an overlap

  type Scene = seq<Element>

  /** `addText` without the append: a black run with exactly the given transform
      (an empty transform string sets no attribute). */
  function NewText(x: real, y: real, content: string, size: real, anchor: Anchor, weight: int, extra: Transform): TextRun {
    TextRun(content, x, y, size, anchor, weight, Black, extra)
  }

  /** `addText(svg, x, y, content, size, anchor, weight, transformStr)`: a new black run with
      exactly the given transform is appended after everything already there, which does not move. */
  function AddText(scene: Scene, x: real, y: real, content: string, size: real, anchor: Anchor, weight: int, extra: Transform): (r: Scene)
    ensures |r| == |scene| + 1 && r[..|scene|] == scene
    ensures r[|scene|].Text? && r[|scene|].run.fill == Black && r[|scene|].run.transform == extra
    ensures r[|scene|].run == TextRun(content, x, y, size, anchor, weight, Black, extra)
  {
    scene + [Text(NewText(x, y, content, size, anchor, weight, extra))]
  }

  // ---------------------------------------------------------------- shapes

  /** `placeShape`'s style argument: `'stroke'`, or anything else (filled). */
  datatype StyleMode = Filled | Outlined

  /** The stroke width of an outlined shape: 2 units after scaling, but never below 1. */
  function OutlineWidth(scale: real): (w: real)
    requires scale > 0.0
    ensures w >= 1.0
    ensures w * scale >= 2.0
  {
    var w := Max(1.0, 2.0 / scale);
    assert (2.0 / scale) * scale == 2.0;
    assert w * scale >= (2.0 / scale) * scale by {
      if w > 2.0 / scale { PositiveProduct(w - 2.0 / scale, scale); }
    }
    w
  }

  /** Recolour every descendant: filled means black fill and no stroke (the width is left as
      it was); outlined means no fill and a black stroke of `OutlineWidth(scale)`. */
  function Recolour(parts: seq<Part>, mode: StyleMode, scale: real): (r: seq<Part>)
    requires scale > 0.0
    ensures |r| == |parts|
    ensures mode == Filled ==> forall k :: 0 <= k < |r| ==> r[k] == parts[k].(fill := Black, stroke := NoPaint)
    ensures mode == Outlined ==> forall k :: 0 <= k < |r| ==> r[k] == Part(NoPaint, Black, Some(OutlineWidth(scale)))
  {
    seq(|parts|, k requires 0 <= k < |parts| =>
      match mode
      case Filled => parts[k].(fill := Black, stroke := NoPaint)
      case Outlined => Part(NoPaint, Black, Some(OutlineWidth(scale))))
  }

  /** The clone `placeShape` builds: moved to (cx, cy), rotated by `rot`, scaled, recoloured. */
  function ShapeFrom(tpl: ShapeTemplate, cx: real, cy: real, scale: real, rot: real, mode: StyleMode): (g: ShapeInst)
    requires scale > 0.0
    ensures g.isGroup == tpl.isGroup
    ensures g.transform == [Translate(cx, cy), Rotate(rot), Scale(scale, scale)]
    ensures |g.parts| == |tpl.parts|
    ensures mode == Filled ==> forall k :: 0 <= k < |g.parts| ==> g.parts[k].fill == Black && g.parts[k].stroke == NoPaint
    ensures mode == Outlined ==> forall k :: 0 <= k < |g.parts| ==>
      g.parts[k].fill == NoPaint && g.parts[k].stroke == Black
      && g.parts[k].strokeWidth.Some? && g.parts[k].strokeWidth.value >= 1.0
  {
    ShapeInst(tpl.isGroup, [Translate(cx, cy), Rotate(rot), Scale(scale, scale)], Recolour(tpl.parts, mode, scale))
  }

  /** `placeShape(svg, ...)`: the recoloured clone is appended last; nothing before it moves. */
  function PlaceShape(scene: Scene, tpl: ShapeTemplate, cx: real, cy: real, scale: real, rot: real, mode: StyleMode): (r: Scene)
    requires scale > 0.0
    ensures |r| == |scene| + 1 && r[..|scene|] == scene
    ensures r[|scene|] == Shape(ShapeFrom(tpl, cx, cy, scale, rot, mode))
  {
    scene + [Shape(ShapeFrom(tpl, cx, cy, scale, rot, mode))]
  }

  /** `svg.insertBefore(g, svg.firstChild)`: the element becomes the first child, so it paints
      before -- underneath -- everything already there, the background included. */
  function InsertFront(scene: Scene, e: Element): (r: Scene)
    ensures |r| == |scene| + 1 && r[0] == e && r[1..] == scene
  {
    [e] + scene
  }

  // ---------------------------------------------------------------- duplication

  /** +1 for even copies, -1 for odd ones. */
  function Sign(i: nat): real {
    if i % 2 == 0 then 1.0 else -1.0
  }

  /** The offset of copy `i`: `dx = round((i+1) * step * s)`, `dy = round((i+1) * max(2, step/2) * s)`. */
  function CloneOffset(i: nat, step: real): Op {
    Translate(
      JsRound((i + 1) as real * step * Sign(i)) as real,
      JsRound((i + 1) as real * Max(2.0, step / 2.0) * Sign(i)) as real)
  }

  /** Copy `i` of a run: black when `i` is even, white when odd, shifted by its offset. */
  function AltClone(base: TextRun, i: nat, step: real): TextRun {
    base.(fill := if i % 2 == 0 then Black else White, transform := base.transform + [CloneOffset(i, step)])
  }

  /** `duplicateWithAlternation(svg, base, copies, offsetStep)`: no copies when the base cannot
      be measured; otherwise `copies` independent copies in creation order, each identical to the
      base except for its alternating fill and the one translation appended to its transform. */
  function DuplicateWithAlternation(base: TextRun, box: Option<Box>, copies: int, step: real): (clones: seq<TextRun>)
    ensures box.None? || copies <= 0 ==> clones == []
    ensures box.Some? && copies > 0 ==> |clones| == copies
    ensures forall i :: 0 <= i < |clones| ==>
      && clones[i].fill == (if i % 2 == 0 then Black else White)
      && |clones[i].transform| == |base.transform| + 1
      && clones[i].transform[..|base.transform|] == base.transform
      && clones[i].transform[|base.transform|] == CloneOffset(i, step)
      && clones[i].(fill := base.fill, transform := base.transform) == base
  {
    if box.None? || copies <= 0 then []
    else seq(copies, i requires 0 <= i < copies => AltClone(base, i, step))
  }

  /** The copies appended to the scene, after everything already there. */
  function AppendRuns(scene: Scene, runs: seq<TextRun>): (r: Scene)
    ensures |r| == |scene| + |runs| && r[..|scene|] == scene
    ensures forall k :: 0 <= k < |runs| ==> r[|scene| + k] == Text(runs[k])
  {
    scene + seq(|runs|, k requires 0 <= k < |runs| => Text(runs[k]))
  }

  /** With a positive step of at least one unit, copies alternate sides: even copies move right
      and down, odd copies left and up. */
  lemma OffsetsAlternate(i: nat, step: real)
    requires step >= 1.0
    ensures i % 2 == 0 ==> CloneOffset(i, step).tx > 0.0 && CloneOffset(i, step).ty > 0.0
    ensures i % 2 == 1 ==> CloneOffset(i, step).tx < 0.0 && CloneOffset(i, step).ty < 0.0
  {
    var n := (i + 1) as real;
    var half := Max(2.0, step / 2.0);
    if n > 1.0 {
      PositiveProduct(n - 1.0, step);
      PositiveProduct(n - 1.0, half);
    }
    assert n * step >= 1.0 && n * half >= 1.0;
  }

  /** The worked example: four copies with step 6 are black, white, black, white, shifted by
      dx = 6, -12, 18, -24 and dy = 3, -6, 9, -12. */
  lemma FourCopiesOfStepSix(base: TextRun, b: Box)
    ensures var c := DuplicateWithAlternation(base, Some(b), 4, 6.0);
      && |c| == 4
      && [c[0].fill, c[1].fill, c[2].fill, c[3].fill] == [Black, White, Black, White]
      && [CloneOffset(0, 6.0), CloneOffset(1, 6.0), CloneOffset(2, 6.0), CloneOffset(3, 6.0)]
         == [Translate(6.0, 3.0), Translate(-12.0, -6.0), Translate(18.0, 9.0), Translate(-24.0, -12.0)]
  {
    assert JsRound(6.0) == 6 && JsRound(-12.0) == -12 && JsRound(18.0) == 18 && JsRound(-24.0) == -24;
    assert JsRound(3.0) == 3 && JsRound(-6.0) == -6 && JsRound(9.0) == 9 && JsRound(-12.0) == -12;
  }

  // ---------------------------------------------------------------- erasing a shape

  /** Every descendant of the shape painted white, fill and stroke. */
  function Whiten(g: ShapeInst): (r: ShapeInst)
    ensures r.isGroup == g.isGroup && r.transform == g.transform && |r.parts| == |g.parts|
    ensures forall k :: 0 <= k < |r.parts| ==>
      r.parts[k].fill == White && r.parts[k].stroke == White && r.parts[k].strokeWidth == g.parts[k].strokeWidth
  {
    g.(parts := seq(|g.parts|, k requires 0 <= k < |g.parts| => g.parts[k].(fill := White, stroke := White)))
  }

  /** Desaturating twice is desaturating once. */
  lemma WhitenIdempotent(g: ShapeInst)
    ensures Whiten(Whiten(g)) == Whiten(g)
  {
    assert Whiten(Whiten(g)).parts == Whiten(g).parts;
  }
}
