/** `compose` (script.js:187-229): split the input into words, show a placeholder when there
    are none, otherwise run one of four recipes on a fresh white canvas, resolve text/shape
    overlaps, and add the footer label. */
module Compose {
  import opened Wrappers
  import opened JsNumbers
  import opened Rand
  import opened Scene
  import opened Words
  import opened Engine
  import opened Overlap
  import VerticalStack
  import MassShape
  import MultiplyColumn
  import GridRhythm

  datatype Recipe = VerticalStackRecipe | MassShapeRecipe | MultiplyColumnRecipe | GridRhythmRecipe

  /** The four recipes followed by the first two again, weighting those two double. */
  const RecipeSlots: seq<Recipe> :=
    [VerticalStackRecipe, MassShapeRecipe, MultiplyColumnRecipe, GridRhythmRecipe, VerticalStackRecipe, MassShapeRecipe]

  /** `pick(recipes.concat([...]))`. */
  function ChooseRecipe(d: Draw): (r: Recipe)
    ensures r in RecipeSlots
  {
    Choose(RecipeSlots, d)
  }

  /** Which draws select which recipe: each slot is a sixth of [0, 1). */
  lemma RecipeOdds(d: Draw)
    ensures ChooseRecipe(d) == VerticalStackRecipe <==> d < 1.0 / 6.0 || (4.0 / 6.0 <= d < 5.0 / 6.0)
    ensures ChooseRecipe(d) == MassShapeRecipe <==> (1.0 / 6.0 <= d < 2.0 / 6.0) || 5.0 / 6.0 <= d
    ensures ChooseRecipe(d) == MultiplyColumnRecipe <==> 2.0 / 6.0 <= d < 3.0 / 6.0
    ensures ChooseRecipe(d) == GridRhythmRecipe <==> 3.0 / 6.0 <= d < 4.0 / 6.0
  {
    var k := Slot(6, d);
    SlotIff(6, d, k);
    assert ChooseRecipe(d) == RecipeSlots[k];
  }

  /** The text shown for an empty input. */
  function Placeholder(h: nat): TextRun {
    NewText(Padding, JsRound(h as real * 0.45) as real, "type something...", 14.0, Start, 700, [])
  }

  /** The first one or two words joined by a space. */
  function FooterText(words: seq<string>): string {
    Join(words[..if |words| < 2 then |words| else 2], " ")
  }

  /** The small label at the bottom left, six pixels above the bottom edge. */
  function Footer(words: seq<string>, h: nat): TextRun {
    NewText(Padding, JsRound(h as real - 6.0) as real, FooterText(words), 9.0, Start, 700, [])
  }

  /** The footer label is what `addText` appends for the first two words (script.js:228). */
  lemma FooterAdded(scene: Scene, words: seq<string>, h: nat)
    ensures scene + [Text(Footer(words, h))]
         == AddText(scene, Padding, JsRound(h as real - 6.0) as real, FooterText(words), 9.0, Start, 700, [])
  {
  }

  /** What one of the recipes produced. */
  datatype Made =
    | VS(vs: VerticalStack.Out)
    | MS(ms: MassShape.Out)
    | MC(mc: MultiplyColumn.Out)
    | GR(gr: GridRhythm.Out)
  {
    /** The state the recipe left. */
    function End(): Gen {
      match this
      case VS(o) => o.gen
      case MS(o) => o.gen
      case MC(o) => o.gen
      case GR(o) => o.gen
    }

    /** The shape the recipe put at the front, if any. */
    function BackdropShape(): Option<ShapeInst> {
      match this
      case VS(o) => o.backdrop
      case MS(o) => o.backdrop
      case MC(_) => None
      case GR(_) => None
    }
  }

  /** `m` is what `recipe` produces on `words` from the state `g`. */
  predicate Fits(recipe: Recipe, env: Env, words: seq<string>, g: Gen, m: Made)
    requires |words| > 0
  {
    match recipe
    case VerticalStackRecipe => m.VS? && VerticalStack.Produced(env, words, g, m.vs)
    case MassShapeRecipe => m.MS? && MassShape.Produced(env, words, g, m.ms)
    case MultiplyColumnRecipe => m.MC? && MultiplyColumn.Produced(env, words, g, m.mc)
    case GridRhythmRecipe => m.GR? && GridRhythm.Produced(env, words, g, m.gr)
  }

  /** The recipe run on the canvas (script.js:203): its output, with its backdrop shape if it
      placed one. */
  method RunRecipe(recipe: Recipe, env: Env, words: seq<string>, g: Gen) returns (m: Made)
    requires env.Valid() && |words| > 0
    ensures Fits(recipe, env, words, g, m)
    ensures BackdropFirst(g.scene, m.End().scene, m.BackdropShape())
    ensures |m.End().scene| > |g.scene| + (if m.BackdropShape().Some? then 1 else 0)
    ensures m.BackdropShape().Some? ==> |env.shapes| > 0 && (recipe == VerticalStackRecipe || recipe == MassShapeRecipe)
    ensures recipe == MassShapeRecipe ==> (m.BackdropShape().Some? <==> |env.shapes| > 0)
  {
    match recipe
    case VerticalStackRecipe =>
      var o := VerticalStack.Run(env, words, g);
      m := VS(o);
    case MassShapeRecipe =>
      var o := MassShape.Run(env, words, g);
      m := MS(o);
    case MultiplyColumnRecipe =>
      var o := MultiplyColumn.Run(env, words, g);
      m := MC(o);
    case GridRhythmRecipe =>
      var o := GridRhythm.Run(env, words, g);
      m := GR(o);
  }

  /** A composed poster: its elements in paint order, the recipe used (none for an empty
      input), the backdrop shape placed, the rolls used, and whether `compose` ran to its end. */
  datatype Poster = Poster(scene: Scene, recipe: Option<Recipe>, backdrop: Option<ShapeInst>, used: nat, finished: bool)

  /** What `compose` does after the recipe (script.js:205-228): the overlap pass over the scene the
      recipe `made`, then the footer label -- unless the pass threw, which only the version
      without a `placeWhiteMask` can do, and which appends nothing. */
  function Finish(words: seq<string>, env: Env, recipe: Recipe, made: Gen, backdrop: Option<ShapeInst>, maskDefined: bool): (p: Poster)
    requires |words| > 0
    ensures p.recipe == Some(recipe) && p.backdrop == backdrop
    ensures var sw := Pass(made.scene, env.measure, env.src, made.pos, maskDefined);
      && p.used == sw.pos && p.finished == !sw.aborted
      && |sw.scene| <= |p.scene| && p.scene[..|sw.scene|] == sw.scene
    ensures maskDefined ==> p.finished
    ensures p.finished ==> |p.scene| > |made.scene| && p.scene[|p.scene| - 1] == Text(Footer(words, env.h))
    ensures !p.finished ==> !maskDefined && |p.scene| == |made.scene|
  {
    PassAccount(made.scene, env.measure, env.src, made.pos, maskDefined);
    var sw := Pass(made.scene, env.measure, env.src, made.pos, maskDefined);
    if sw.aborted then Poster(sw.scene, Some(recipe), backdrop, sw.pos, false)
    else Poster(sw.scene + [Text(Footer(words, env.h))], Some(recipe), backdrop, sw.pos, true)
  }

  /** `placeWhiteMask` undefined against defined: whenever the version as written finishes, it
      built exactly the corrected poster; when it throws, it has fewer elements -- neither the
      masks nor the footer. */
  lemma FinishAgree(words: seq<string>, env: Env, recipe: Recipe, made: Gen, backdrop: Option<ShapeInst>)
    requires |words| > 0
    ensures var asWritten := Finish(words, env, recipe, made, backdrop, false);
      var corrected := Finish(words, env, recipe, made, backdrop, true);
      && (asWritten.finished ==> asWritten == corrected)
      && (!asWritten.finished ==> |asWritten.scene| < |corrected.scene|)
  {
    PassAgree(made.scene, env.measure, env.src, made.pos);
  }

  /** `compose(text, ...)` on a canvas of `env.w` by `env.h` pixels: no words gives the background
      and the placeholder; otherwise the first roll picks the recipe, the recipe runs on the
      canvas from the second roll on and produces `made`, and the pass and footer follow. The
      background is kept, right behind the backdrop shape when a recipe inserted one at the
      front -- where the opaque, canvas-sized background covers it. */
  method Compose(text: string, env: Env, maskDefined: bool) returns (p: Poster, made: Option<Made>)
    requires env.Valid()
    ensures Split(text) == [] <==> p.recipe.None?
    ensures Split(text) == [] <==> made.None?
    ensures Split(text) == [] ==>
      p.scene == [Background(env.w as real, env.h as real), Text(Placeholder(env.h))] && p.used == 0 && p.finished
    ensures Split(text) != [] ==> p.recipe == Some(ChooseRecipe(env.src(0)))
    ensures Split(text) != [] ==>
      && made.Some?
      && Fits(ChooseRecipe(env.src(0)), env, Split(text), Gen([Background(env.w as real, env.h as real)], 1), made.value)
      && p.backdrop == made.value.BackdropShape()
      && BackdropFirst([Background(env.w as real, env.h as real)], made.value.End().scene, p.backdrop)
      && p == Finish(Split(text), env, ChooseRecipe(env.src(0)), made.value.End(), p.backdrop, maskDefined)
    ensures p.backdrop.Some? ==>
      |env.shapes| > 0 && (p.recipe == Some(VerticalStackRecipe) || p.recipe == Some(MassShapeRecipe))
    ensures p.recipe == Some(MassShapeRecipe) ==> (p.backdrop.Some? <==> |env.shapes| > 0)
    ensures maskDefined ==> p.finished
    ensures Split(text) != [] && p.finished ==>
      |p.scene| >= 3 && p.scene[|p.scene| - 1] == Text(Footer(Split(text), env.h))
    ensures p.backdrop.Some? ==>
      |p.scene| >= 2 && p.scene[0].Shape? && p.scene[1] == Background(env.w as real, env.h as real)
    ensures p.backdrop.None? ==> |p.scene| >= 1 && p.scene[0] == Background(env.w as real, env.h as real)
  {
    var words := Split(text);
    var canvas := [Background(env.w as real, env.h as real)];
    if |words| == 0 {
      p := Poster(AddText(canvas, Padding, JsRound(env.h as real * 0.45) as real, "type something...", 14.0, Start, 700, []),
                  None, None, 0, true);
      made := None;
    } else {
      var recipe := ChooseRecipe(env.src(0));
      var m := RunRecipe(recipe, env, words, Gen(canvas, 1));
      made := Some(m);
      var end := m.End();
      var after := Pass(end.scene, env.measure, env.src, end.pos, maskDefined);
      PassKeepsLayout(end.scene, env.measure, env.src, end.pos, maskDefined);
      BackgroundKept(canvas, end.scene, after.scene, m.BackdropShape());
      p := Finish(words, env, recipe, end, m.BackdropShape(), maskDefined);
      assert p.scene[..|after.scene|] == after.scene;
    }
  }

  /** The background survives a recipe and the pass, at the front or right behind the backdrop. */
  lemma BackgroundKept(canvas: Scene, made: Scene, after: Scene, backdrop: Option<ShapeInst>)
    requires |canvas| == 1 && canvas[0].Background?
    requires BackdropFirst(canvas, made, backdrop) && Evolves(made, after)
    ensures backdrop.None? ==> |after| >= 1 && after[0] == canvas[0]
    ensures backdrop.Some? ==> |after| >= 2 && after[0].Shape? && after[1] == canvas[0]
  {
    if backdrop.Some? {
      assert made[1..][0] == made[1];
    }
  }

  /** The footer reads back as the first two words of the text (the only one, when there is one). */
  lemma FooterWords(text: string)
    ensures var ws := Split(text);
      Split(FooterText(ws)) == ws[..if |ws| < 2 then |ws| else 2]
  {
    var ws := Split(text);
    SplitYieldsWords(text);
    var first := ws[..if |ws| < 2 then |ws| else 2];
    assert forall k :: 0 <= k < |first| ==> first[k] == ws[k];
    SplitJoin(first);
  }

  /** The footer of "HELLO WORLD" is "HELLO WORLD"; of "a b c" it is "a b". */
  lemma FooterExamples()
    ensures FooterText(Split("HELLO WORLD")) == "HELLO WORLD"
    ensures FooterText(["a", "b", "c"]) == "a b"
  {
    HelloWorld();
    assert ["HELLO", "WORLD"][..2] == ["HELLO", "WORLD"];
    assert ["a", "b", "c"][..2] == ["a", "b"];
    assert Join(["b"], " ") == "b";
    assert Join(["a", "b"], " ") == "a" + " " + "b";
    assert Join(["WORLD"], " ") == "WORLD";
    assert Join(["HELLO", "WORLD"], " ") == "HELLO" + " " + "WORLD";
  }
}
