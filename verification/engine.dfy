/** What the recipes share: the environment a poster is composed in (canvas size, shape catalog,
    the text-metrics capability and the entropy source), the state threaded through a recipe, and
    the fit / distort / duplicate / place steps as the recipes call them. */
module Engine {
  import opened Wrappers
  import opened JsNumbers
  import opened Rand
  import opened Geometry
  import opened Transforms
  import opened Scene

  /** Inner padding of the canvas in pixels (script.js:22). */
  const Padding: real := 16.0

  /** The inputs of one composition: canvas width and height in pixels, the shape catalog,
      `getBBox` as a function of the element, and the rolls `rnd()` returns in call order. */
  datatype Env = Env(w: nat, h: nat, shapes: seq<ShapeTemplate>, measure: Element -> Option<Box>, src: Entropy) {
    /** The canvas is wide and tall enough for both paddings, so no budget or range between the
        paddings is negative. */
    predicate Valid() { w >= 32 && h >= 32 }
  }

  /** The scene built so far and the index of the next unused roll. */
  datatype Gen = Gen(scene: Scene, pos: nat)

  /** `after` keeps `before` as its prefix: elements were only appended. */
  predicate Extends(before: Scene, after: Scene) {
    |before| <= |after| && after[..|before|] == before
  }

  /** Appending twice is appending. */
  lemma ExtendsTrans(a: Scene, b: Scene, c: Scene)
    requires Extends(a, b) && Extends(b, c)
    ensures Extends(a, c)
  {
    assert c[..|a|] == c[..|b|][..|a|];
  }

  // ---------------------------------------------------------------- where things went

  /** The runs as elements. */
  function Texts(runs: seq<TextRun>): (es: seq<Element>)
    ensures |es| == |runs| && forall k :: 0 <= k < |runs| ==> es[k] == Text(runs[k])
  {
    seq(|runs|, k requires 0 <= k < |runs| => Text(runs[k]))
  }

  /** The shapes as elements. */
  function Shapes(shapes: seq<ShapeInst>): (es: seq<Element>)
    ensures |es| == |shapes| && forall k :: 0 <= k < |shapes| ==> es[k] == Shape(shapes[k])
  {
    seq(|shapes|, k requires 0 <= k < |shapes| => Shape(shapes[k]))
  }

  /** The elements `els` stand in `scene` at the positions `at`: in the same order, at
      increasing positions, none before `from`. */
  predicate PlacedAt(scene: Scene, from: nat, els: seq<Element>, at: seq<nat>) {
    && |at| == |els|
    && (forall k :: 0 <= k < |at| ==> from <= at[k] < |scene| && scene[at[k]] == els[k])
    && (forall j, k :: 0 <= j < k < |at| ==> at[j] < at[k])
  }

  /** An element appended after a placed sequence extends it. */
  lemma PlacedGrow(a: Scene, b: Scene, from: nat, els: seq<Element>, at: seq<nat>, e: Element)
    requires PlacedAt(a, from, els, at) && Extends(a, b) && from <= |a| < |b| && b[|a|] == e
    ensures PlacedAt(b, from, els + [e], at + [|a|])
  {
    forall k | 0 <= k < |at|
      ensures b[at[k]] == els[k]
    {
      assert b[at[k]] == b[..|a|][at[k]];
    }
  }

  /** A placed sequence stays placed, and stays before anything placed later. */
  lemma PlacedJoin(a: Scene, b: Scene, from: nat, els: seq<Element>, at: seq<nat>, more: seq<Element>, moreAt: seq<nat>)
    requires PlacedAt(a, from, els, at) && Extends(a, b) && from <= |a| && PlacedAt(b, |a|, more, moreAt)
    ensures PlacedAt(b, from, els + more, at + moreAt)
  {
    var all, allAt := els + more, at + moreAt;
    forall k | 0 <= k < |allAt|
      ensures from <= allAt[k] < |b| && b[allAt[k]] == all[k]
    {
      if k < |at| {
        assert allAt[k] == at[k] && all[k] == els[k];
        assert b[at[k]] == b[..|a|][at[k]];
      } else {
        assert allAt[k] == moreAt[k - |at|] && all[k] == more[k - |at|];
      }
    }
  }

  /** The positions one further on, as after a front insertion. */
  function Shifted(at: seq<nat>): (r: seq<nat>)
    ensures |r| == |at| && forall k :: 0 <= k < |at| ==> r[k] == at[k] + 1
  {
    seq(|at|, k requires 0 <= k < |at| => at[k] + 1)
  }

  /** What was placed before a backdrop step is still placed after it, one further on when the
      backdrop went to the front. */
  lemma PlacedBehind(a: Scene, b: Scene, from: nat, els: seq<Element>, at: seq<nat>, s: Option<ShapeInst>)
    requires PlacedAt(a, from, els, at) && BackdropFirst(a, b, s)
    ensures s.None? ==> PlacedAt(b, from, els, at)
    ensures s.Some? ==> PlacedAt(b, from + 1, els, Shifted(at))
  {
    forall k | 0 <= k < |at|
      ensures s.None? ==> b[at[k]] == els[k]
      ensures s.Some? ==> b[at[k] + 1] == els[k]
    {
      if s.None? {
        assert b[at[k]] == b[..|a|][at[k]];
      } else {
        assert b[at[k] + 1] == b[1..][at[k]] == b[1..][..|a|][at[k]];
      }
    }
  }

  /** The positions of what was placed before a backdrop step, after it. */
  function Behind(at: seq<nat>, s: Option<ShapeInst>): seq<nat> {
    if s.Some? then Shifted(at) else at
  }

  /** Runs placed, then a backdrop step, then more runs placed: all of them stand in order,
      the first ones one further on when the backdrop went to the front. */
  lemma PlacedAround(a: Scene, b: Scene, c: Scene, from: nat, runs: seq<TextRun>, at: seq<nat>,
                     s: Option<ShapeInst>, more: seq<TextRun>, moreAt: seq<nat>)
    requires PlacedAt(a, from, Texts(runs), at) && from <= |a| && BackdropFirst(a, b, s)
    requires Extends(b, c) && PlacedAt(c, |b|, Texts(more), moreAt)
    ensures PlacedAt(c, from + (if s.Some? then 1 else 0), Texts(runs + more), Behind(at, s) + moreAt)
  {
    PlacedBehind(a, b, from, Texts(runs), at, s);
    PlacedJoin(b, c, from + (if s.Some? then 1 else 0), Texts(runs), Behind(at, s), Texts(more), moreAt);
    assert Texts(runs + more) == Texts(runs) + Texts(more);
  }

  /** A run after an edit, with the index of the next unused roll. */
  datatype Placed = Placed(run: TextRun, pos: nat)

  /** `fitTextToWidth` on a run: only its transform may change. */
  function Fit(env: Env, t: TextRun, maxWidth: real, allowScaleX: bool): (r: TextRun)
    requires maxWidth >= 0.0
    ensures r.(transform := t.transform) == t
    ensures !allowScaleX ==> r == t
  {
    t.(transform := FitTextToWidth(t.transform, env.measure(Text(t)), maxWidth, allowScaleX))
  }

  /** `applyDistortion(t, 3.5, 0.25, 18)`: only the transform may change, and it is only extended;
      one roll is used when nothing happens, five otherwise. */
  function Distort(env: Env, t: TextRun, pos: nat): (r: Placed)
    ensures r.run.(transform := t.transform) == t
    ensures |t.transform| <= |r.run.transform| && r.run.transform[..|t.transform|] == t.transform
    ensures r.pos == pos + 1 || r.pos == pos + 5
  {
    var d := ApplyDistortion(t.transform, env.measure(Text(t)), DefaultLimits, env.src, pos);
    Placed(t.(transform := d.transform), d.next)
  }

  /** `if (rnd() > threshold) applyDistortion(t, ...)`. */
  function MaybeDistort(env: Env, t: TextRun, pos: nat, threshold: real): (r: Placed)
    ensures r.run.(transform := t.transform) == t
    ensures r.pos > pos
  {
    if env.src(pos) > threshold then Distort(env, t, pos + 1) else Placed(t, pos + 1)
  }

  /** `if (rnd() > threshold) duplicateWithAlternation(svg, t, rndInt(1, maxCopies), step)`:
      copies of `t`, and nothing else, are appended -- at least one when the roll exceeds the
      threshold and `t` can be measured, none otherwise. Copy `k` is `t` with the fill black for
      even `k` and white for odd `k`, and its offset appended to the transform. */
  function MaybeDuplicate(env: Env, scene: Scene, t: TextRun, pos: nat, threshold: real, maxCopies: int, step: real): (r: Gen)
    ensures Extends(scene, r.scene) && r.pos > pos
    ensures r.pos == pos + (if env.src(pos) > threshold then 2 else 1)
    ensures |r.scene| > |scene| ==> env.src(pos) > threshold && env.measure(Text(t)).Some?
    ensures env.src(pos) > threshold && env.measure(Text(t)).Some? && maxCopies >= 1 ==> |r.scene| > |scene|
    ensures forall k :: |scene| <= k < |r.scene| ==> r.scene[k].Text? && r.scene[k].run.content == t.content
    ensures forall k :: |scene| <= k < |r.scene| ==>
      && r.scene[k].Text?
      && r.scene[k].run.(fill := t.fill, transform := t.transform) == t
      && r.scene[k].run.fill == (if (k - |scene|) % 2 == 0 then Black else White)
      && r.scene[k].run.transform == t.transform + [CloneOffset(k - |scene|, step)]
    ensures maxCopies >= 1 ==> |r.scene| <= |scene| + maxCopies
  {
    if env.src(pos) > threshold then
      var copies := RndInt(1, maxCopies, env.src(pos + 1));
      var clones := DuplicateWithAlternation(t, env.measure(Text(t)), copies, step);
      CopiesAppended(scene, t, env.measure(Text(t)), copies, step);
      Gen(AppendRuns(scene, clones), pos + 2)
    else Gen(scene, pos + 1)
  }

  /** Each element the duplication appends is the matching copy of `t`. */
  lemma CopiesAppended(scene: Scene, t: TextRun, box: Option<Box>, copies: int, step: real)
    ensures var r := AppendRuns(scene, DuplicateWithAlternation(t, box, copies, step));
      forall k :: |scene| <= k < |r| ==>
        && r[k].Text?
        && r[k].run.(fill := t.fill, transform := t.transform) == t
        && r[k].run.fill == (if (k - |scene|) % 2 == 0 then Black else White)
        && r[k].run.transform == t.transform + [CloneOffset(k - |scene|, step)]
  {
    var clones := DuplicateWithAlternation(t, box, copies, step);
    var r := AppendRuns(scene, clones);
    forall k | |scene| <= k < |r|
      ensures r[k] == Text(clones[k - |scene|])
    {
      assert r[|scene| + (k - |scene|)] == Text(clones[k - |scene|]);
    }
  }

  /** A catalog shape cloned, given the transform `ops` and recoloured: the small shapes the
      recipes scatter themselves instead of calling `placeShape`. */
  function Scatter(tpl: ShapeTemplate, ops: Transform, mode: StyleMode, scale: real): (g: ShapeInst)
    requires scale > 0.0
    ensures g.isGroup == tpl.isGroup && g.transform == ops && |g.parts| == |tpl.parts|
    ensures mode == Filled ==> forall k :: 0 <= k < |g.parts| ==> g.parts[k].fill == Black && g.parts[k].stroke == NoPaint
  {
    ShapeInst(tpl.isGroup, ops, Recolour(tpl.parts, mode, scale))
  }

  /** A large shape placed behind: the result of a backdrop step. */
  datatype Backdrop = Backdrop(gen: Gen, shape: Option<ShapeInst>)

  /** A backdrop shape from five consecutive rolls (shape, scale, x, y, rotation of 0, 90 or 270),
      placed with `placeShape` and then moved to the front of the child list -- ahead of the
      background too. It is outlined when `outlineAbove` is given and the scale exceeds it,
      filled otherwise. */
  function PlaceBackdrop(env: Env, scene: Scene, pos: nat, scale: Span, cx: Span, cy: Span, outlineAbove: Option<real>): (r: Backdrop)
    requires |env.shapes| > 0 && scale.lo > 0.0 && scale.hi > 0.0
    ensures r.shape.Some? && r.gen.pos == pos + 5
    ensures r.gen.scene == InsertFront(scene, Shape(r.shape.value))
  {
    var tpl := Choose(env.shapes, env.src(pos));
    var sc := RndRange(scale.lo, scale.hi, env.src(pos + 1));
    var x := JsRound(env.w as real * RndRange(cx.lo, cx.hi, env.src(pos + 2)));
    var y := JsRound(env.h as real * RndRange(cy.lo, cy.hi, env.src(pos + 3)));
    var rot := Choose([0, 90, 270], env.src(pos + 4));
    var mode := if outlineAbove.Some? && sc > outlineAbove.value then Outlined else Filled;
    var placed := PlaceShape(scene, tpl, x as real, y as real, sc, rot as real, mode);
    var g := placed[|scene|].shape;
    Backdrop(Gen(InsertFront(scene, Shape(g)), pos + 5), Some(g))
  }

  /** Where a recipe's backdrop went: with none, elements were only appended; with one, it is
      the FIRST child and everything else was only appended after the earlier elements. */
  predicate BackdropFirst(before: Scene, after: Scene, backdrop: Option<ShapeInst>) {
    match backdrop
    case None => Extends(before, after)
    case Some(s) => |after| > 0 && after[0] == Shape(s) && Extends(before, after[1..])
  }

  /** Appending before and after a backdrop step keeps the backdrop first and the rest in order. */
  lemma BackdropChain(a: Scene, b: Scene, c: Scene, d: Scene, s: Option<ShapeInst>)
    requires Extends(a, b) && BackdropFirst(b, c, s) && Extends(c, d)
    ensures BackdropFirst(a, d, s)
  {
    match s
    case None =>
      assert d[..|a|] == c[..|b|][..|a|];
    case Some(_) =>
      assert d[1..][..|c| - 1] == c[1..];
      assert d[1..][..|a|] == c[1..][..|b|][..|a|];
  }
}
