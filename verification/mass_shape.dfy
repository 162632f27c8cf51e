/** Recipe B, "Massive Shape Background" (script.js:288-332): a large filled shape at the front of
    the child list, the first one or two words centred big, one to four smaller echoes of them
    further down, and a column of small shapes near the right edge. */
module MassShape {
  import opened Wrappers
  import opened JsNumbers
  import opened Rand
  import opened Transforms
  import opened Scene
  import opened Words
  import opened Engine

  /** What the recipe produced, and where the headline, the echoes and the small shapes stand. */
  datatype Out = Out(gen: Gen, backdrop: Option<ShapeInst>, headline: TextRun, echoes: seq<TextRun>, small: seq<ShapeInst>, at: seq<nat>)

  /** A placed run with the state after it and the running baseline. */
  datatype Step = Step(gen: Gen, run: TextRun, y: int)

  /** Shapes placed by a loop, in order, the state after it, and where the shapes stand. */
  datatype Scattered = Scattered(gen: Gen, shapes: seq<ShapeInst>, at: seq<nat>)

  /** Runs placed by a loop, in order, the state after it, and where the runs stand. */
  datatype Stacked = Stacked(gen: Gen, runs: seq<TextRun>, at: seq<nat>)

  /** A small shape of the side column: moved, scaled uniformly by 0.08 to 0.6, turned 0 or 90
      degrees, and painted solid black. */
  predicate ColumnShape(g: ShapeInst) {
    && |g.transform| == 3
    && g.transform[0].Translate?
    && g.transform[1].Scale? && g.transform[1].sx == g.transform[1].sy && 0.08 <= g.transform[1].sx < 0.6
    && (g.transform[2] == Rotate(0.0) || g.transform[2] == Rotate(90.0))
    && forall k :: 0 <= k < |g.parts| ==> g.parts[k].fill == Black && g.parts[k].stroke == NoPaint
  }

  /** The headline: the first one or two words joined by a space. */
  function HeadlineText(words: seq<string>): string {
    Join(words[..if |words| < 2 then |words| else 2], " ")
  }

  /** The backbone step (script.js:290-298): with a catalog, a filled shape scaled 1.0 to 1.8
      goes to the front of the child list; no roll is used without one. */
  function Backbone(env: Env, g: Gen): (b: Backdrop)
    ensures b.shape.Some? <==> |env.shapes| > 0
    ensures BackdropFirst(g.scene, b.gen.scene, b.shape)
    ensures |b.gen.scene| == |g.scene| + (if b.shape.Some? then 1 else 0)
  {
    if |env.shapes| == 0 then Backdrop(g, None)
    else PlaceBackdrop(env, g.scene, g.pos, Span(1.0, 1.8), Span(0.35, 0.65), Span(0.3, 0.55), None)
  }

  /** The centred headline (script.js:300-309): sized 0.18 to 0.32 of the height, not condensed,
      sometimes distorted. */
  method Headline(env: Env, headline: string, g: Gen) returns (s: Step)
    requires env.Valid()
    ensures s.run.content == headline && s.run.anchor == Middle && s.run.weight == 900
    ensures s.gen.scene == g.scene + [Text(s.run)] && s.gen.pos > g.pos
  {
    var size := JsRound(env.h as real * RndRange(0.18, 0.32, env.src(g.pos)));
    var cy := JsRound(env.h as real * RndRange(0.38, 0.5, env.src(g.pos + 1)));
    var main := NewText(JsRound(env.w as real / 2.0) as real, cy as real, headline, size as real, Middle, 900, []);
    var fitted := Fit(env, main, env.w as real - Padding * 2.0, false);
    var d := MaybeDistort(env, fitted, g.pos + 2, 0.4);
    s := Step(Gen(g.scene + [Text(d.run)], d.pos), d.run, cy);
  }

  /** Echo `i` (script.js:314-316): the baseline drops by 0.24 to 0.5 of the headline size, the
      copy is 0.2 to 0.34 of it, shifted right by 2% of the size per echo, and sometimes echoed
      again in alternating fills. */
  method Echo(env: Env, headline: string, size: int, cx: int, i: nat, y: int, g: Gen) returns (s: Step)
    ensures s.run.content == headline && s.run.anchor == Middle && s.run.weight == 700
    ensures Extends(g.scene, s.gen.scene) && |s.gen.scene| > |g.scene| && s.gen.scene[|g.scene|] == Text(s.run)
    ensures s.gen.pos > g.pos
  {
    var y' := y + JsRound(size as real * RndRange(0.24, 0.5, env.src(g.pos)));
    var t := NewText((cx + JsRound(size as real * 0.02 * i as real)) as real, y' as real, headline,
                     JsRound(size as real * RndRange(0.2, 0.34, env.src(g.pos + 1))) as real, Middle, 700, []);
    var dup := MaybeDuplicate(env, g.scene + [Text(t)], t, g.pos + 2, 0.3, 3, 5.0);
    s := Step(dup, t, y');
  }

  /** The echo loop (script.js:312-317): `count` echoes of the headline, in order. */
  method Echoes(env: Env, headline: string, size: int, cx: int, count: nat, y0: int, g0: Gen) returns (r: Stacked)
    ensures |r.runs| == count
    ensures forall k :: 0 <= k < |r.runs| ==> r.runs[k].content == headline && r.runs[k].weight == 700
    ensures Extends(g0.scene, r.gen.scene)
    ensures PlacedAt(r.gen.scene, |g0.scene|, Texts(r.runs), r.at)
  {
    var g, y := g0, y0;
    var runs: seq<TextRun> := [];
    var at: seq<nat> := [];
    var i := 0;
    while i < count
      invariant i <= count && |runs| == i
      invariant forall k :: 0 <= k < i ==> runs[k].content == headline && runs[k].weight == 700
      invariant Extends(g0.scene, g.scene)
      invariant PlacedAt(g.scene, |g0.scene|, Texts(runs), at)
    {
      var s := Echo(env, headline, size, cx, i, y, g);
      ExtendsTrans(g0.scene, g.scene, s.gen.scene);
      PlacedGrow(g.scene, s.gen.scene, |g0.scene|, Texts(runs), at, Text(s.run));
      assert Texts(runs + [s.run]) == Texts(runs) + [Text(s.run)];
      g, y, runs, at := s.gen, s.y, runs + [s.run], at + [|g.scene|];
      i := i + 1;
    }
    r := Stacked(g, runs, at);
  }

  /** One small shape of the side column (script.js:323-330). */
  function ColumnPiece(env: Env, g: Gen): (s: (Gen, ShapeInst))
    requires |env.shapes| > 0
    ensures ColumnShape(s.1) && s.0.scene == g.scene + [Shape(s.1)] && s.0.pos > g.pos
  {
    var tpl := Choose(env.shapes, env.src(g.pos));
    var sc := RndRange(0.08, 0.6, env.src(g.pos + 1));
    var px := JsRound(env.w as real - Padding - RndRange(10.0, 40.0, env.src(g.pos + 2)));
    var py := JsRound(env.h as real * RndRange(0.12, 0.88, env.src(g.pos + 3)));
    var rot := Choose([0, 0, 90], env.src(g.pos + 4));
    var s := Scatter(tpl, [Translate(px as real, py as real), Scale(sc, sc), Rotate(rot as real)], Filled, sc);
    (Gen(g.scene + [Shape(s)], g.pos + 5), s)
  }

  /** The side column loop (script.js:321-331): `count` small shapes, or none at all -- the loop
      breaks at once -- without a catalog. */
  method Column(env: Env, count: int, g0: Gen) returns (r: Scattered)
    ensures |env.shapes| > 0 && count >= 0 ==> |r.shapes| == count
    ensures |env.shapes| == 0 ==> r.shapes == [] && r.gen == g0
    ensures forall k :: 0 <= k < |r.shapes| ==> ColumnShape(r.shapes[k])
    ensures Extends(g0.scene, r.gen.scene)
    ensures PlacedAt(r.gen.scene, |g0.scene|, Shapes(r.shapes), r.at)
  {
    var g := g0;
    var shapes: seq<ShapeInst> := [];
    var at: seq<nat> := [];
    var i := 0;
    while i < count && |env.shapes| > 0
      invariant 0 <= i && (count >= 0 ==> i <= count) && |shapes| == i
      invariant |env.shapes| == 0 ==> shapes == [] && g == g0
      invariant forall k :: 0 <= k < i ==> ColumnShape(shapes[k])
      invariant Extends(g0.scene, g.scene)
      invariant PlacedAt(g.scene, |g0.scene|, Shapes(shapes), at)
    {
      var s := ColumnPiece(env, g);
      PlacedGrow(g.scene, s.0.scene, |g0.scene|, Shapes(shapes), at, Shape(s.1));
      assert Shapes(shapes + [s.1]) == Shapes(shapes) + [Shape(s.1)];
      g, shapes, at := s.0, shapes + [s.1], at + [|g.scene|];
      i := i + 1;
    }
    r := Scattered(g, shapes, at);
  }

  /** What the recipe leaves, run on `words` from the state `g`: a backdrop exactly when there is
      a catalog, at the front; the centred heavy headline of the first words; 1 to 4 lighter
      echoes of it; 1 to 4 small column shapes with a catalog, none without; and headline, echoes
      and shapes standing in the scene in that order after what was there and the backdrop. */
  predicate Produced(env: Env, words: seq<string>, g: Gen, r: Out)
    requires |words| > 0
  {
    && (r.backdrop.Some? <==> |env.shapes| > 0)
    && r.headline.content == HeadlineText(words) && r.headline.anchor == Middle && r.headline.weight == 900
    && 1 <= |r.echoes| <= 4
    && (forall k :: 0 <= k < |r.echoes| ==> r.echoes[k].content == HeadlineText(words) && r.echoes[k].weight == 700)
    && (|env.shapes| > 0 ==> 1 <= |r.small| <= 4)
    && (|env.shapes| == 0 ==> r.small == [])
    && (forall k :: 0 <= k < |r.small| ==> ColumnShape(r.small[k]))
    && BackdropFirst(g.scene, r.gen.scene, r.backdrop)
    && |r.gen.scene| > |g.scene| + (if r.backdrop.Some? then 1 else 0)
    && PlacedAt(r.gen.scene, |g.scene| + (if r.backdrop.Some? then 1 else 0),
                [Text(r.headline)] + Texts(r.echoes) + Shapes(r.small), r.at)
  }

  /** The whole recipe. */
  method Run(env: Env, words: seq<string>, g: Gen) returns (r: Out)
    requires env.Valid() && |words| > 0
    ensures Produced(env, words, g, r)
  {
    var bd := Backbone(env, g);
    var headline := HeadlineText(words);
    var main := Headline(env, headline, bd.gen);
    var echoCount := RndInt(1, 4, env.src(main.gen.pos));
    var size := JsRound(main.run.size);
    var ec := Echoes(env, headline, size, JsRound(main.run.x), echoCount, main.y, Gen(main.gen.scene, main.gen.pos + 1));
    var shapeCount := RndInt(1, 4, env.src(ec.gen.pos));
    var col := Column(env, shapeCount, Gen(ec.gen.scene, ec.gen.pos + 1));
    ExtendsTrans(bd.gen.scene, main.gen.scene, ec.gen.scene);
    ExtendsTrans(bd.gen.scene, ec.gen.scene, col.gen.scene);
    BackdropChain(g.scene, g.scene, bd.gen.scene, col.gen.scene, bd.shape);
    var from := |bd.gen.scene|;
    PlacedGrow(bd.gen.scene, main.gen.scene, from, [], [], Text(main.run));
    PlacedJoin(main.gen.scene, ec.gen.scene, from, [Text(main.run)], [from], Texts(ec.runs), ec.at);
    PlacedJoin(ec.gen.scene, col.gen.scene, from, [Text(main.run)] + Texts(ec.runs), [from] + ec.at, Shapes(col.shapes), col.at);
    r := Out(col.gen, bd.shape, main.run, ec.runs, col.shapes, [from] + ec.at + col.at);
  }
}
