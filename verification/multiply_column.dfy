/** Recipe C, "Multiply Column" (script.js:335-379): the first word repeated down the page in
    alternating upper and lower case, sometimes turned, distorted or echoed; the remaining words
    as one long phrase turned 90 degrees along the right edge; and small shapes sprinkled over the
    padded canvas. */
module MultiplyColumn {
  import opened Wrappers
  import opened JsNumbers
  import opened Rand
  import opened Transforms
  import opened Scene
  import opened Words
  import opened Engine

  /** What the recipe produced, and where the rows, the sidebar and the sprinkled shapes stand. */
  datatype Out = Out(gen: Gen, rows: seq<TextRun>, side: Option<TextRun>, sprinkled: seq<ShapeInst>, at: seq<nat>)

  /** A placed run with the state after it and the running baseline. */
  datatype Step = Step(gen: Gen, run: TextRun, y: int)

  /** Runs placed by a loop, in order, the state after it, and where the runs stand. */
  datatype Stacked = Stacked(gen: Gen, runs: seq<TextRun>, at: seq<nat>)

  /** Shapes placed by a loop, in order, the state after it, and where the shapes stand. */
  datatype Scattered = Scattered(gen: Gen, shapes: seq<ShapeInst>, at: seq<nat>)

  /** How many rows the column has: one per 40 pixels of height, but at least six. */
  function RowCount(h: nat): (n: nat)
    ensures n >= 6 && n >= h / 40 && (n == 6 || n == h / 40)
  {
    if 6 >= h / 40 then 6 else h / 40
  }

  /** A sprinkled shape: centred on a whole-pixel point inside the padded canvas, turned by 0, 90
      or 270 degrees, scaled uniformly by 0.06 to 0.3, and painted solid black. */
  predicate Sprinkle(g: ShapeInst, w: nat, h: nat) {
    && |g.transform| == 3
    && g.transform[0].Translate?
    && g.transform[0].tx == g.transform[0].tx.Floor as real && g.transform[0].ty == g.transform[0].ty.Floor as real
    && Padding <= g.transform[0].tx <= w as real - Padding
    && Padding <= g.transform[0].ty <= h as real - Padding
    && (g.transform[1] == Rotate(0.0) || g.transform[1] == Rotate(90.0) || g.transform[1] == Rotate(270.0))
    && g.transform[2].Scale? && g.transform[2].sx == g.transform[2].sy && 0.06 <= g.transform[2].sx < 0.3
    && forall k :: 0 <= k < |g.parts| ==> g.parts[k].fill == Black && g.parts[k].stroke == NoPaint
  }

  /** Row `i` (script.js:341-353): nudged right by up to four pixels, turned about its own origin
      one time in five, fitted to the padded width, sometimes distorted, sometimes echoed; the
      baseline then drops by 0.7 to 1.35 of the size. */
  method Row(env: Env, content: string, size: int, y: int, g: Gen) returns (s: Step)
    requires env.Valid()
    ensures s.run.content == content && s.run.weight == 800 && s.run.size == size as real
    ensures Extends(g.scene, s.gen.scene) && |s.gen.scene| > |g.scene| && s.gen.scene[|g.scene|] == Text(s.run)
    ensures s.gen.pos > g.pos
  {
    var x := Padding + JsRound(RndRange(0.0, 4.0, env.src(g.pos))) as real;
    var rot := Choose([0, 0, 90, 270, 0], env.src(g.pos + 1));
    var t := NewText(x, y as real, content, size as real, Start, 800,
                     if rot == 0 then [] else [RotateAbout(rot as real, x, y as real)]);
    var fitted := Fit(env, t, env.w as real - Padding * 2.0, true);
    var d := MaybeDistort(env, fitted, g.pos + 2, 0.7);
    var dup := MaybeDuplicate(env, g.scene + [Text(d.run)], d.run, d.pos, 0.6, 4, JsRound(size as real * 0.04 + 3.0) as real);
    s := Step(Gen(dup.scene, dup.pos + 1), d.run, y + JsRound(size as real * RndRange(0.7, 1.35, env.src(dup.pos))));
  }

  /** The row loop (script.js:340-353): `count` rows of the first word, upper case on even rows
      and lower case on odd ones. */
  method Rows(env: Env, word: string, size: int, count: nat, y0: int, g0: Gen) returns (r: Stacked)
    requires env.Valid()
    ensures |r.runs| == count
    ensures forall k :: 0 <= k < |r.runs| ==> r.runs[k].content == RowCase(word, k) && r.runs[k].weight == 800
    ensures Extends(g0.scene, r.gen.scene) && |r.gen.scene| >= |g0.scene| + |r.runs|
    ensures PlacedAt(r.gen.scene, |g0.scene|, Texts(r.runs), r.at)
  {
    var g, y := g0, y0;
    var runs: seq<TextRun> := [];
    var at: seq<nat> := [];
    var i := 0;
    while i < count
      invariant i <= count && |runs| == i
      invariant forall k :: 0 <= k < i ==> runs[k].content == RowCase(word, k) && runs[k].weight == 800
      invariant Extends(g0.scene, g.scene) && |g.scene| >= |g0.scene| + i
      invariant PlacedAt(g.scene, |g0.scene|, Texts(runs), at)
    {
      var s := Row(env, RowCase(word, i), size, y, g);
      ExtendsTrans(g0.scene, g.scene, s.gen.scene);
      PlacedGrow(g.scene, s.gen.scene, |g0.scene|, Texts(runs), at, Text(s.run));
      assert Texts(runs + [s.run]) == Texts(runs) + [Text(s.run)];
      g, y, runs, at := s.gen, s.y, runs + [s.run], at + [|g.scene|];
      i := i + 1;
    }
    r := Stacked(g, runs, at);
  }

  /** The sidebar step (script.js:356-363): with a second word, one roll decides, and above 0.3
      the other words, joined, are set 0.12 to 0.22 of the height tall at the right edge, turned
      90 degrees about their anchor and fitted to 90% of the height. */
  function Sidebar(env: Env, words: seq<string>, g: Gen): (r: (Gen, Option<TextRun>))
    requires |words| > 0
    ensures r.1.Some? <==> |words| > 1 && env.src(g.pos) > 0.3
    ensures r.1.Some? ==> r.1.value.content == Join(words[1..], " ") && r.1.value.weight == 900 && r.1.value.anchor == Middle
    ensures r.1.Some? ==> |r.1.value.transform| >= 1 && r.1.value.transform[0] == RotateAbout(90.0, r.1.value.x, r.1.value.y)
    ensures r.0.pos == g.pos + (if r.1.Some? then 2 else if |words| > 1 then 1 else 0)
    ensures r.1.Some? ==> r.0.scene == g.scene + [Text(r.1.value)]
    ensures r.1.None? ==> r.0.scene == g.scene
  {
    if |words| > 1 && env.src(g.pos) > 0.3 then
      var size := JsRound(env.h as real * RndRange(0.12, 0.22, env.src(g.pos + 1)));
      var x := JsRound(env.w as real - Padding / 2.0) as real;
      var yMid := JsRound(env.h as real * 0.5) as real;
      var t := NewText(x, yMid, Join(words[1..], " "), size as real, Middle, 900, [RotateAbout(90.0, x, yMid)]);
      var fitted := Fit(env, t, env.h as real * 0.9, true);
      (Gen(g.scene + [Text(fitted)], g.pos + 2), Some(fitted))
    else (Gen(g.scene, if |words| > 1 then g.pos + 1 else g.pos), None)
  }

  /** A rounded roll between the paddings lands between them. */
  lemma RoundedInside(v: real, extent: nat)
    requires Padding <= v <= extent as real - Padding
    ensures Padding <= JsRound(v) as real <= extent as real - Padding
  {
    var n := JsRound(v);
    assert 15.5 < n as real <= extent as real - 15.5;
  }

  /** One sprinkled shape (script.js:370-377). */
  function Sprinkled(env: Env, g: Gen): (s: (Gen, ShapeInst))
    requires env.Valid() && |env.shapes| > 0
    ensures Sprinkle(s.1, env.w, env.h) && s.0.scene == g.scene + [Shape(s.1)] && s.0.pos > g.pos
  {
    var tpl := Choose(env.shapes, env.src(g.pos));
    var sc := RndRange(0.06, 0.3, env.src(g.pos + 1));
    var cxv := RndRange(Padding, env.w as real - Padding, env.src(g.pos + 2));
    var cyv := RndRange(Padding, env.h as real - Padding, env.src(g.pos + 3));
    var rot := Choose([0, 0, 90, 270], env.src(g.pos + 4));
    RoundedInside(cxv, env.w);
    RoundedInside(cyv, env.h);
    var s := Scatter(tpl, [Translate(JsRound(cxv) as real, JsRound(cyv) as real), Rotate(rot as real), Scale(sc, sc)], Filled, sc);
    (Gen(g.scene + [Shape(s)], g.pos + 5), s)
  }

  /** The sprinkle loop (script.js:367-378): `count` shapes, or none at all -- the loop breaks
      at once -- without a catalog. */
  method Sprinkles(env: Env, count: int, g0: Gen) returns (r: Scattered)
    requires env.Valid()
    ensures |env.shapes| > 0 && count >= 0 ==> |r.shapes| == count
    ensures |env.shapes| == 0 ==> r.shapes == [] && r.gen == g0
    ensures forall k :: 0 <= k < |r.shapes| ==> Sprinkle(r.shapes[k], env.w, env.h)
    ensures Extends(g0.scene, r.gen.scene)
    ensures PlacedAt(r.gen.scene, |g0.scene|, Shapes(r.shapes), r.at)
  {
    var g := g0;
    var shapes: seq<ShapeInst> := [];
    var at: seq<nat> := [];
    var i := 0;
    while i < count && |env.shapes| > 0
      invariant 0 <= i && (count >= 0 ==> i <= count) && |shapes| == i
      invariant |env.shapes| == 0 ==> shapes == [] && g == g0
      invariant forall k :: 0 <= k < i ==> Sprinkle(shapes[k], env.w, env.h)
      invariant Extends(g0.scene, g.scene)
      invariant PlacedAt(g.scene, |g0.scene|, Shapes(shapes), at)
    {
      var s := Sprinkled(env, g);
      PlacedGrow(g.scene, s.0.scene, |g0.scene|, Shapes(shapes), at, Shape(s.1));
      assert Shapes(shapes + [s.1]) == Shapes(shapes) + [Shape(s.1)];
      g, shapes, at := s.0, shapes + [s.1], at + [|g.scene|];
      i := i + 1;
    }
    r := Scattered(g, shapes, at);
  }

  /** What the recipe leaves, run on `words` from the state `g`: the row count of rows spelling
      the first word in alternating case; a sidebar only with a second word, holding the other
      words; 2 to 6 sprinkled shapes with a catalog, none without; and rows, sidebar and shapes
      standing in the scene in that order after what was there. */
  predicate Produced(env: Env, words: seq<string>, g: Gen, r: Out)
    requires |words| > 0
  {
    && |r.rows| == RowCount(env.h)
    && (forall k :: 0 <= k < |r.rows| ==> r.rows[k].content == RowCase(words[0], k))
    && (r.side.Some? ==> |words| > 1 && r.side.value.content == Join(words[1..], " "))
    && (|env.shapes| > 0 ==> 2 <= |r.sprinkled| <= 6)
    && (|env.shapes| == 0 ==> r.sprinkled == [])
    && (forall k :: 0 <= k < |r.sprinkled| ==> Sprinkle(r.sprinkled[k], env.w, env.h))
    && Extends(g.scene, r.gen.scene)
    && |r.gen.scene| > |g.scene|
    && PlacedAt(r.gen.scene, |g.scene|,
                Texts(r.rows + (if r.side.Some? then [r.side.value] else [])) + Shapes(r.sprinkled), r.at)
  }

  /** The whole recipe. */
  method Run(env: Env, words: seq<string>, g: Gen) returns (r: Out)
    requires env.Valid() && |words| > 0
    ensures Produced(env, words, g, r)
  {
    var size := JsRound(env.h as real * RndRange(0.06, 0.14, env.src(g.pos)));
    var rows := Rows(env, words[0], size, RowCount(env.h), JsRound(env.h as real * 0.06), Gen(g.scene, g.pos + 1));
    var side := Sidebar(env, words, rows.gen);
    var many := RndInt(2, 6, env.src(side.0.pos));
    var sp := Sprinkles(env, many, Gen(side.0.scene, side.0.pos + 1));
    ExtendsTrans(g.scene, rows.gen.scene, side.0.scene);
    ExtendsTrans(g.scene, side.0.scene, sp.gen.scene);
    var written := rows.runs + (if side.1.Some? then [side.1.value] else []);
    var at := rows.at;
    if side.1.Some? {
      PlacedGrow(rows.gen.scene, side.0.scene, |g.scene|, Texts(rows.runs), rows.at, Text(side.1.value));
      assert Texts(written) == Texts(rows.runs) + [Text(side.1.value)];
      at := rows.at + [|rows.gen.scene|];
    } else {
      assert written == rows.runs;
    }
    PlacedJoin(side.0.scene, sp.gen.scene, |g.scene|, Texts(written), at, Shapes(sp.shapes), sp.at);
    r := Out(sp.gen, rows.runs, side.1, sp.shapes, at + sp.at);
  }
}
