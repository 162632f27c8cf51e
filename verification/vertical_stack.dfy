/** Recipe A, "Vertical Power Stack" (script.js:236-285): up to four words stacked large down the
    left edge, each fitted, distorted and sometimes echoed, an optional large shape at the
    front of the child list, and an optional band of small repeats of the first word near the bottom. */
module VerticalStack {
  import opened Wrappers
  import opened JsNumbers
  import opened Rand
  import opened Transforms
  import opened Scene
  import opened Engine

  /** The runs a loop placed (in order), the state after it, and where the runs stand. */
  datatype Stacked = Stacked(gen: Gen, runs: seq<TextRun>, at: seq<nat>)

  /** What the recipe produced: the state after it, the headline lines, the backdrop shape if
      one was placed, the small rhythm runs, and where the lines and then the rhythm runs stand. */
  datatype Out = Out(gen: Gen, lines: seq<TextRun>, backdrop: Option<ShapeInst>, rhythm: seq<TextRun>, at: seq<nat>)

  /** One placed run, the state after it, and where the next line goes. */
  datatype Step = Step(gen: Gen, run: TextRun, y: int)

  /** One line of the stack (script.js:244-258): sized from the headline band, fitted to the
      padded width, distorted, maybe echoed; `y` then moves down by 0.86 to 1.05 of the size. */
  method StackLine(env: Env, line: string, headMax: int, i: nat, y: int, g: Gen) returns (s: Step)
    requires env.Valid()
    ensures s.run.content == line && s.run.weight == 900 && s.run.anchor == Start
    ensures Extends(g.scene, s.gen.scene) && |s.gen.scene| > |g.scene| && s.gen.scene[|g.scene|] == Text(s.run)
    ensures s.gen.pos > g.pos
  {
    var hm := headMax as real;
    var size := JsRound(RndRange(hm * (1.0 - i as real * 0.1), hm * (0.9 - i as real * 0.05), env.src(g.pos)));
    var t := NewText(Padding, y as real, line, size as real, Start, 900, []);
    var fitted := Fit(env, t, env.w as real - Padding * 2.0, true);
    var d := Distort(env, fitted, g.pos + 1);
    var dup := MaybeDuplicate(env, g.scene + [Text(d.run)], d.run, d.pos, 0.4, 4, JsRound(size as real * 0.03 + 4.0) as real);
    var y' := y + JsRound(size as real * RndRange(0.86, 1.05, env.src(dup.pos)));
    s := Step(Gen(dup.scene, dup.pos + 1), d.run, y');
  }

  /** The stack loop (script.js:243-259): one heavy run per line, in order. */
  method StackLines(env: Env, lines: seq<string>, headMax: int, y0: int, g0: Gen) returns (r: Stacked)
    requires env.Valid()
    ensures |r.runs| == |lines|
    ensures forall k :: 0 <= k < |r.runs| ==> r.runs[k].content == lines[k] && r.runs[k].weight == 900
    ensures Extends(g0.scene, r.gen.scene) && |r.gen.scene| >= |g0.scene| + |r.runs|
    ensures PlacedAt(r.gen.scene, |g0.scene|, Texts(r.runs), r.at)
    ensures r.gen.pos >= g0.pos
  {
    var g, y := g0, y0;
    var runs: seq<TextRun> := [];
    var at: seq<nat> := [];
    var i := 0;
    while i < |lines|
      invariant i <= |lines| && |runs| == i
      invariant forall k :: 0 <= k < i ==> runs[k].content == lines[k] && runs[k].weight == 900
      invariant Extends(g0.scene, g.scene) && |g.scene| >= |g0.scene| + i
      invariant PlacedAt(g.scene, |g0.scene|, Texts(runs), at)
      invariant g.pos >= g0.pos
    {
      var s := StackLine(env, lines[i], headMax, i, y, g);
      ExtendsTrans(g0.scene, g.scene, s.gen.scene);
      PlacedGrow(g.scene, s.gen.scene, |g0.scene|, Texts(runs), at, Text(s.run));
      assert Texts(runs + [s.run]) == Texts(runs) + [Text(s.run)];
      g, y, runs, at := s.gen, s.y, runs + [s.run], at + [|g.scene|];
      i := i + 1;
    }
    r := Stacked(g, runs, at);
  }

  /** One rhythm row (script.js:280-282): the first word, small and bold, nudged right by up to
      six pixels, either upright or carrying the bare `90` transform, sometimes echoed. */
  method RhythmRow(env: Env, rep: string, sizeSmall: int, y: int, g: Gen) returns (s: Step)
    ensures s.run.content == rep && s.run.size == sizeSmall as real && s.run.weight == 700
    ensures s.run.transform == [] || s.run.transform == [Bare(90)]
    ensures Extends(g.scene, s.gen.scene) && |s.gen.scene| > |g.scene| && s.gen.scene[|g.scene|] == Text(s.run)
    ensures s.gen.pos > g.pos && s.y == y
  {
    var x := Padding + RndInt(0, 6, env.src(g.pos)) as real;
    var rot := Choose([0, 90], env.src(g.pos + 1));
    var t := NewText(x, y as real, rep, sizeSmall as real, Start, 700, BareTransform(rot));
    var dup := MaybeDuplicate(env, g.scene + [Text(t)], t, g.pos + 2, 0.5, 3, 4.0);
    s := Step(dup, t, y);
  }

  /** The rhythm loop (script.js:279-283): row `i` sits `i` line heights below `yy`. */
  method RhythmRows(env: Env, rep: string, sizeSmall: int, yy: int, count: nat, g0: Gen) returns (r: Stacked)
    ensures |r.runs| == count
    ensures forall k :: 0 <= k < |r.runs| ==>
      && r.runs[k].content == rep && r.runs[k].size == sizeSmall as real
      && (r.runs[k].transform == [] || r.runs[k].transform == [Bare(90)])
    ensures Extends(g0.scene, r.gen.scene) && |r.gen.scene| >= |g0.scene| + |r.runs|
    ensures PlacedAt(r.gen.scene, |g0.scene|, Texts(r.runs), r.at)
  {
    var g := g0;
    var runs: seq<TextRun> := [];
    var at: seq<nat> := [];
    var i := 0;
    while i < count
      invariant i <= count && |runs| == i
      invariant forall k :: 0 <= k < i ==>
        && runs[k].content == rep && runs[k].size == sizeSmall as real
        && (runs[k].transform == [] || runs[k].transform == [Bare(90)])
      invariant Extends(g0.scene, g.scene) && |g.scene| >= |g0.scene| + i
      invariant PlacedAt(g.scene, |g0.scene|, Texts(runs), at)
    {
      var s := RhythmRow(env, rep, sizeSmall, yy + i * JsRound(sizeSmall as real * 1.2), g);
      ExtendsTrans(g0.scene, g.scene, s.gen.scene);
      PlacedGrow(g.scene, s.gen.scene, |g0.scene|, Texts(runs), at, Text(s.run));
      assert Texts(runs + [s.run]) == Texts(runs) + [Text(s.run)];
      g, runs, at := s.gen, runs + [s.run], at + [|g.scene|];
      i := i + 1;
    }
    r := Stacked(g, runs, at);
  }

  /** The backdrop step (script.js:262-272): with a catalog, one roll decides, and above 0.2 a
      shape scaled 0.7 to 1.4 goes to the front of the child list, outlined when the scale exceeds 0.9. */
  function StackBackdrop(env: Env, g: Gen): (b: Backdrop)
    ensures b.shape.Some? <==> |env.shapes| > 0 && env.src(g.pos) > 0.2
    ensures b.gen.pos == g.pos + (if |env.shapes| == 0 then 0 else if b.shape.Some? then 6 else 1)
    ensures BackdropFirst(g.scene, b.gen.scene, b.shape)
  {
    if |env.shapes| == 0 then Backdrop(g, None)
    else if env.src(g.pos) > 0.2 then
      PlaceBackdrop(env, g.scene, g.pos + 1, Span(0.7, 1.4), Span(0.55, 0.9), Span(0.2, 0.45), Some(0.9))
    else Backdrop(Gen(g.scene, g.pos + 1), None)
  }

  /** The rhythm step (script.js:274-284): with a second word, one roll decides, and above 0.3
      three to eight rows of the first word are appended. */
  method Rhythm(env: Env, words: seq<string>, headMin: int, g: Gen) returns (r: Stacked)
    requires |words| > 0
    ensures r.runs != [] <==> |words| > 1 && env.src(g.pos) > 0.3
    ensures r.runs != [] ==> |r.runs| == RndInt(3, 8, env.src(g.pos + 1)) && 3 <= |r.runs| <= 8
    ensures forall k :: 0 <= k < |r.runs| ==>
      r.runs[k].content == words[0] && (r.runs[k].transform == [] || r.runs[k].transform == [Bare(90)])
    ensures Extends(g.scene, r.gen.scene) && |r.gen.scene| >= |g.scene| + |r.runs|
    ensures PlacedAt(r.gen.scene, |g.scene|, Texts(r.runs), r.at)
    ensures r.runs == [] ==> r.gen == Gen(g.scene, if |words| > 1 then g.pos + 1 else g.pos)
  {
    if |words| > 1 && env.src(g.pos) > 0.3 {
      var sizeSmall := JsRound(Max(8.0, headMin as real * 0.20));
      var count := RndInt(3, 8, env.src(g.pos + 1));
      r := RhythmRows(env, words[0], sizeSmall, JsRound(env.h as real * 0.7), count, Gen(g.scene, g.pos + 2));
    } else {
      r := Stacked(Gen(g.scene, if |words| > 1 then g.pos + 1 else g.pos), [], []);
    }
  }

  /** What the recipe leaves, run on `words` from the state `g`: min(4, words) lines carrying the
      first words in order; a backdrop only with a catalog, at the front; no rhythm band or one of
      3 to 8 runs of the first word when there is a second word; and the lines, then the rhythm
      runs, standing in the scene in that order after what was there and the backdrop. */
  predicate Produced(env: Env, words: seq<string>, g: Gen, r: Out)
    requires |words| > 0
  {
    && |r.lines| == (if |words| < 4 then |words| else 4)
    && (forall k :: 0 <= k < |r.lines| ==> r.lines[k].content == words[k])
    && (r.backdrop.Some? ==> |env.shapes| > 0)
    && (r.rhythm != [] ==> |words| > 1 && 3 <= |r.rhythm| <= 8)
    && (forall k :: 0 <= k < |r.rhythm| ==>
         r.rhythm[k].content == words[0] && (r.rhythm[k].transform == [] || r.rhythm[k].transform == [Bare(90)]))
    && BackdropFirst(g.scene, r.gen.scene, r.backdrop)
    && |r.gen.scene| > |g.scene| + (if r.backdrop.Some? then 1 else 0)
    && PlacedAt(r.gen.scene, |g.scene| + (if r.backdrop.Some? then 1 else 0), Texts(r.lines + r.rhythm), r.at)
  }

  /** The whole recipe. */
  method Run(env: Env, words: seq<string>, g: Gen) returns (r: Out)
    requires env.Valid() && |words| > 0
    ensures Produced(env, words, g, r)
  {
    var lines := words[..if |words| < 4 then |words| else 4];
    var st := StackLines(env, lines, JsRound(env.h as real * 0.30), JsRound(env.h as real * 0.16), g);
    var bd := StackBackdrop(env, st.gen);
    var rh := Rhythm(env, words, JsRound(env.h as real * 0.12), bd.gen);
    BackdropChain(g.scene, st.gen.scene, bd.gen.scene, rh.gen.scene, bd.shape);
    PlacedAround(st.gen.scene, bd.gen.scene, rh.gen.scene, |g.scene|, st.runs, st.at, bd.shape, rh.runs, rh.at);
    r := Out(rh.gen, st.runs, bd.shape, rh.runs, Behind(st.at, bd.shape) + rh.at);
  }
}
