/** Recipe D, "Grid Rhythm" (script.js:382-417): the first one to three words as a strong
    headline on the left, and a two-column grid on the right whose cells are each either a small
    shape or a small word of the input. */
module GridRhythm {
  import opened Wrappers
  import opened JsNumbers
  import opened Rand
  import opened Transforms
  import opened Scene
  import opened Words
  import opened Engine

  /** One grid cell. */
  datatype Cell = ShapeCell(shape: ShapeInst) | TextCell(run: TextRun)

  /** What the recipe produced: the headline, the number of grid rows, the cells row by row,
      and where the headline and the cells stand. */
  datatype Out = Out(gen: Gen, main: TextRun, rows: int, cells: seq<Cell>, at: seq<nat>)

  /** Cells placed by a loop, in order, the state after it, and where the cells stand. */
  datatype Laid = Laid(gen: Gen, cells: seq<Cell>, at: seq<nat>)

  /** The element a cell adds to the poster. */
  function Drawn(c: Cell): Element {
    match c
    case ShapeCell(sh) => Shape(sh)
    case TextCell(t) => Text(t)
  }

  /** The cells as elements. */
  function Drawings(cs: seq<Cell>): (es: seq<Element>)
    ensures |es| == |cs| && forall k :: 0 <= k < |cs| ==> es[k] == Drawn(cs[k])
  {
    seq(|cs|, k requires 0 <= k < |cs| => Drawn(cs[k]))
  }

  /** The headline: the first one to three words joined by a space. */
  function PhraseText(words: seq<string>): string {
    Join(words[..if |words| < 3 then |words| else 3], " ")
  }

  /** A shape cell: moved to its grid point, turned 0 or 90 degrees, scaled uniformly by 0.06
      to 0.36, and painted solid black. */
  predicate GridShape(g: ShapeInst) {
    && |g.transform| == 3
    && g.transform[0].Translate?
    && (g.transform[1] == Rotate(0.0) || g.transform[1] == Rotate(90.0))
    && g.transform[2].Scale? && g.transform[2].sx == g.transform[2].sy && 0.06 <= g.transform[2].sx < 0.36
    && forall k :: 0 <= k < |g.parts| ==> g.parts[k].fill == Black && g.parts[k].stroke == NoPaint
  }

  /** The scale of a shape cell never exceeds 0.5, so the outlined style the cell code offers
      for scales above 0.5 is never chosen. */
  lemma StrokeBranchDead(d: Draw)
    ensures RndRange(0.06, 0.36, d) <= 0.5
  {
  }

  /** Cell (`row`, `col`) (script.js:399-414): the grid point jittered by up to six pixels each
      way; then one roll picks a shape (when there is a catalog) or a word of the input. */
  method GridCell(env: Env, words: seq<string>, size: int, startX: int, gap: int, top: int, row: nat, col: nat, g: Gen) returns (s: (Gen, Cell))
    requires |words| > 0
    ensures s.1.ShapeCell? <==> env.src(g.pos + 2) > 0.5 && |env.shapes| > 0
    ensures s.1.TextCell? ==> s.1.run.content in words && s.1.run.weight == 700
    ensures s.1.TextCell? ==> s.1.run.transform == [] || s.1.run.transform == [Bare(90)]
    ensures s.1.ShapeCell? ==> |env.shapes| > 0 && GridShape(s.1.shape)
    ensures Extends(g.scene, s.0.scene) && |s.0.scene| > |g.scene|
    ensures s.0.scene[|g.scene|] == Drawn(s.1)
    ensures s.0.pos > g.pos
  {
    var px := startX + col * gap + RndInt(-6, 6, env.src(g.pos));
    var py := top + row * JsRound(size as real * 0.5) + RndInt(-6, 6, env.src(g.pos + 1));
    if env.src(g.pos + 2) > 0.5 && |env.shapes| > 0 {
      var tpl := Choose(env.shapes, env.src(g.pos + 3));
      var sc := RndRange(0.06, 0.36, env.src(g.pos + 4));
      var rot := Choose([0, 0, 90], env.src(g.pos + 5));
      var mode := if sc > 0.5 then Outlined else Filled;
      var sh := Scatter(tpl, [Translate(px as real, py as real), Rotate(rot as real), Scale(sc, sc)], mode, sc);
      s := (Gen(g.scene + [Shape(sh)], g.pos + 6), ShapeCell(sh));
    } else {
      var small := words[RndInt(0, |words| - 1, env.src(g.pos + 3))];
      var rot := Choose([0, 90], env.src(g.pos + 4));
      var t := NewText(px as real, py as real, small, JsRound(size as real * 0.18) as real, Start, 700, BareTransform(rot));
      s := (MaybeDuplicate(env, g.scene + [Text(t)], t, g.pos + 5, 0.5, 3, 3.0), TextCell(t));
    }
  }

  /** The grid loop (script.js:397-416): `rows` rows of two cells each, row by row. */
  method Cells(env: Env, words: seq<string>, size: int, startX: int, gap: int, top: int, rows: nat, g0: Gen) returns (r: Laid)
    requires |words| > 0
    ensures |r.cells| == 2 * rows
    ensures forall j :: 0 <= j < |r.cells| ==> r.cells[j].TextCell? ==> r.cells[j].run.content in words
    ensures forall j :: 0 <= j < |r.cells| ==> r.cells[j].ShapeCell? ==> |env.shapes| > 0 && GridShape(r.cells[j].shape)
    ensures Extends(g0.scene, r.gen.scene)
    ensures PlacedAt(r.gen.scene, |g0.scene|, Drawings(r.cells), r.at)
  {
    var g := g0;
    var cells: seq<Cell> := [];
    var at: seq<nat> := [];
    var k := 0;
    while k < 2 * rows
      invariant k <= 2 * rows && |cells| == k
      invariant forall j :: 0 <= j < k ==> cells[j].TextCell? ==> cells[j].run.content in words
      invariant forall j :: 0 <= j < k ==> cells[j].ShapeCell? ==> |env.shapes| > 0 && GridShape(cells[j].shape)
      invariant Extends(g0.scene, g.scene)
      invariant PlacedAt(g.scene, |g0.scene|, Drawings(cells), at)
    {
      var s := GridCell(env, words, size, startX, gap, top, k / 2, k % 2, g);
      ExtendsTrans(g0.scene, g.scene, s.0.scene);
      PlacedGrow(g.scene, s.0.scene, |g0.scene|, Drawings(cells), at, Drawn(s.1));
      assert Drawings(cells + [s.1]) == Drawings(cells) + [Drawn(s.1)];
      g, cells, at := s.0, cells + [s.1], at + [|g.scene|];
      k := k + 1;
    }
    r := Laid(g, cells, at);
  }

  /** The headline budget, 55% of the width less the padding, is never negative. */
  lemma HeadlineBudget(w: nat)
    requires w >= 32
    ensures JsRound(w as real * 0.55) as real - Padding >= 0.0
  {
    assert JsRound(w as real * 0.55) as real > 17.0;
  }

  /** What the recipe leaves, run on `words` from the state `g`: the heavy headline of the first
      one to three words; 3 to 7 grid rows of two cells, each a word of the input or, with a
      catalog, a solid black shape; and the headline, then the cells, standing in the scene in
      that order after what was there. */
  predicate Produced(env: Env, words: seq<string>, g: Gen, r: Out) {
    && r.main.content == PhraseText(words) && r.main.weight == 900 && r.main.anchor == Start
    && 3 <= r.rows <= 7 && |r.cells| == 2 * r.rows
    && (forall j :: 0 <= j < |r.cells| ==> r.cells[j].TextCell? ==> r.cells[j].run.content in words)
    && (forall j :: 0 <= j < |r.cells| ==> r.cells[j].ShapeCell? ==> |env.shapes| > 0 && GridShape(r.cells[j].shape))
    && Extends(g.scene, r.gen.scene)
    && |r.gen.scene| > |g.scene|
    && PlacedAt(r.gen.scene, |g.scene|, [Text(r.main)] + Drawings(r.cells), r.at)
  }

  /** The whole recipe. */
  method Run(env: Env, words: seq<string>, g: Gen) returns (r: Out)
    requires env.Valid() && |words| > 0
    ensures Produced(env, words, g, r)
  {
    var size := JsRound(env.h as real * RndRange(0.16, 0.26, env.src(g.pos)));
    var y := JsRound(env.h as real * RndRange(0.28, 0.42, env.src(g.pos + 1)));
    var main := NewText(Padding, y as real, PhraseText(words), size as real, Start, 900, []);
    HeadlineBudget(env.w);
    var fitted := Fit(env, main, JsRound(env.w as real * 0.55) as real - Padding, true);
    var d := MaybeDistort(env, fitted, g.pos + 2, 0.4);
    var rows := RndInt(3, 7, env.src(d.pos));
    var gap := JsRound((env.w as real - env.w as real * 0.55 - Padding * 2.0) / 2.0);
    var cells := Cells(env, words, size, JsRound(env.w as real * 0.55), gap, JsRound(env.h as real * 0.12),
                       rows, Gen(g.scene + [Text(d.run)], d.pos + 1));
    ExtendsTrans(g.scene, g.scene + [Text(d.run)], cells.gen.scene);
    PlacedGrow(g.scene, g.scene + [Text(d.run)], |g.scene|, [], [], Text(d.run));
    PlacedJoin(g.scene + [Text(d.run)], cells.gen.scene, |g.scene|, [Text(d.run)], [|g.scene|], Drawings(cells.cells), cells.at);
    r := Out(cells.gen, d.run, rows, cells.cells, [|g.scene|] + cells.at);
  }
}
