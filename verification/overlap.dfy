/** The overlap post-pass of `compose` (script.js:205-225): every text element is checked
    against every top-level group, and each pair whose boxes overlap spends one roll on a white
    mask over the overlap, a white text fill, or a white shape. */
module Overlap {
  import opened Wrappers
  import opened Rand
  import opened Geometry
  import opened Scene

  /** A top-level element with the box measured for it before the pass. */
  datatype Hit = Hit(index: nat, box: Box)

  /** The elements a sweep looks at: text elements, or groups that are direct children. */
  datatype Kind = TextKind | GroupKind

  predicate OfKind(e: Element, k: Kind) {
    match k
    case TextKind => e.Text?
    case GroupKind => e.Shape? && e.shape.isGroup
  }

  /** The elements of kind `k` from index `i` on that measure to a box, in document order
      (script.js:203-204): each hit names an element of that kind and its measured box, each such
      element is named, and the indices increase. */
  function Collect(scene: Scene, measure: Element -> Option<Box>, k: Kind, i: nat): (hs: seq<Hit>)
    requires i <= |scene|
    ensures forall j :: 0 <= j < |hs| ==>
      i <= hs[j].index < |scene| && OfKind(scene[hs[j].index], k) && measure(scene[hs[j].index]) == Some(hs[j].box)
    ensures forall n :: i <= n < |scene| && OfKind(scene[n], k) && measure(scene[n]).Some? ==>
      Hit(n, measure(scene[n]).value) in hs
    ensures forall a, b :: 0 <= a < b < |hs| ==> hs[a].index < hs[b].index
    decreases |scene| - i
  {
    if i == |scene| then []
    else
      var rest := Collect(scene, measure, k, i + 1);
      if OfKind(scene[i], k) && measure(scene[i]).Some? then [Hit(i, measure(scene[i]).value)] + rest
      else rest
  }

  /** The state of the pass: the scene, the next unused roll, and whether the pass has thrown. */
  datatype Sweep = Sweep(scene: Scene, pos: nat, aborted: bool)

  /** Whether a pair is handled at all: its boxes overlap with positive area. */
  predicate Crossed(t: Hit, s: Hit) {
    IntersectRect(Some(t.box), Some(s.box)).Some?
  }

  /** How many shapes of `ss` the text `t` crosses. */
  function Crossings(t: Hit, ss: seq<Hit>): nat {
    if ss == [] then 0 else (if Crossed(t, ss[0]) then 1 else 0) + Crossings(t, ss[1..])
  }

  /** How many (text, shape) pairs cross. */
  function AllCrossings(ts: seq<Hit>, ss: seq<Hit>): nat {
    if ts == [] then 0 else Crossings(ts[0], ss) + AllCrossings(ts[1..], ss)
  }

  /** `t.el.setAttribute('fill', '#fff')` on the element at `i`. */
  function FillWhite(scene: Scene, i: nat): (r: Scene)
    ensures |r| == |scene|
  {
    if i < |scene| && scene[i].Text? then scene[i := Text(scene[i].run.(fill := White))] else scene
  }

  /** White fill and stroke on every descendant of the group at `i`. */
  function WhitenAt(scene: Scene, i: nat): (r: Scene)
    ensures |r| == |scene|
  {
    if i < |scene| && scene[i].Shape? then scene[i := Shape(Whiten(scene[i].shape))] else scene
  }

  /** The three outcomes of the roll for a crossing pair. */
  datatype Outcome = MaskOver | WhiteText | WhiteShape

  /** Above 0.66 a mask, above 0.33 a white text, otherwise a white shape. */
  function Classify(p: real): (o: Outcome)
    ensures o == MaskOver <==> p > 0.66
    ensures o == WhiteText <==> 0.33 < p <= 0.66
    ensures o == WhiteShape <==> p <= 0.33
  {
    if p > 0.66 then MaskOver else if p > 0.33 then WhiteText else WhiteShape
  }

  /** One crossing pair, on the roll `p`. `maskDefined` says whether `placeWhiteMask` exists:
      when it does not, the mask outcome throws and the pass stops there. Above 0.66 the mask over
      `area` is appended; above 0.33 the text turns white; otherwise every descendant of the
      shape turns white; nothing else changes, and one roll is spent. */
  function Resolve(sw: Sweep, t: Hit, s: Hit, area: Box, p: real, maskDefined: bool): (r: Sweep)
    ensures r.pos == sw.pos + 1
    ensures r.aborted <==> p > 0.66 && !maskDefined
    ensures p > 0.66 && maskDefined ==> r.scene == sw.scene + [Mask(area)]
    ensures p > 0.66 && !maskDefined ==> r.scene == sw.scene
    ensures 0.33 < p <= 0.66 && t.index < |sw.scene| && sw.scene[t.index].Text? ==>
      r.scene == sw.scene[t.index := Text(sw.scene[t.index].run.(fill := White))]
    ensures 0.33 < p <= 0.66 && !(t.index < |sw.scene| && sw.scene[t.index].Text?) ==> r.scene == sw.scene
    ensures p <= 0.33 && s.index < |sw.scene| && sw.scene[s.index].Shape? ==>
      r.scene == sw.scene[s.index := Shape(Whiten(sw.scene[s.index].shape))]
    ensures p <= 0.33 && !(s.index < |sw.scene| && sw.scene[s.index].Shape?) ==> r.scene == sw.scene
  {
    match Classify(p)
    case MaskOver =>
      if maskDefined then Sweep(sw.scene + [Mask(area)], sw.pos + 1, false)
      else Sweep(sw.scene, sw.pos + 1, true)
    case WhiteText => Sweep(FillWhite(sw.scene, t.index), sw.pos + 1, false)
    case WhiteShape => Sweep(WhitenAt(sw.scene, s.index), sw.pos + 1, false)
  }

  /** The inner loop: one text against each shape in turn (script.js:207-222). */
  function AcrossShapes(sw: Sweep, t: Hit, ss: seq<Hit>, src: Entropy, maskDefined: bool): Sweep
    decreases |ss|
  {
    if sw.aborted || ss == [] then sw
    else
      var inter := IntersectRect(Some(t.box), Some(ss[0].box));
      var next := if inter.None? then sw else Resolve(sw, t, ss[0], inter.value, src(sw.pos), maskDefined);
      AcrossShapes(next, t, ss[1..], src, maskDefined)
  }

  /** The outer loop: each text in turn (script.js:206-223). */
  function AcrossTexts(sw: Sweep, ts: seq<Hit>, ss: seq<Hit>, src: Entropy, maskDefined: bool): Sweep
    decreases |ts|
  {
    if sw.aborted || ts == [] then sw
    else AcrossTexts(AcrossShapes(sw, ts[0], ss, src, maskDefined), ts[1..], ss, src, maskDefined)
  }

  /** The whole pass over a scene, boxes measured once up front. */
  function Pass(scene: Scene, measure: Element -> Option<Box>, src: Entropy, pos: nat, maskDefined: bool): Sweep {
    AcrossTexts(Sweep(scene, pos, false),
                Collect(scene, measure, TextKind, 0), Collect(scene, measure, GroupKind, 0), src, maskDefined)
  }

  // ---------------------------------------------------------------- what the pass keeps

  /** What the pass may do to one element: a text may turn white, a shape may be desaturated,
      anything else stays. */
  predicate Evolved(e: Element, f: Element) {
    match e
    case Text(t) => f == e || f == Text(t.(fill := White))
    case Shape(g) => f == e || f == Shape(Whiten(g))
    case _ => f == e
  }

  /** `b` is `a` with elements evolved in place and masks of positive area appended. */
  predicate Evolves(a: Scene, b: Scene) {
    && |a| <= |b|
    && (forall i :: 0 <= i < |a| ==> Evolved(a[i], b[i]))
    && (forall i :: |a| <= i < |b| ==> b[i].Mask? && 0.0 < b[i].area.width && 0.0 < b[i].area.height)
  }

  lemma EvolvesTrans(a: Scene, b: Scene, c: Scene)
    requires Evolves(a, b) && Evolves(b, c)
    ensures Evolves(a, c)
  {
    forall i | 0 <= i < |a|
      ensures Evolved(a[i], c[i])
    {
      if a[i].Shape? {
        WhitenIdempotent(a[i].shape);
      }
    }
  }

  /** Every step keeps the layout: texts only turn white, shapes only turn white, and the only
      new elements are masks over a positive area. */
  lemma {:induction false} ShapesEvolve(sw: Sweep, t: Hit, ss: seq<Hit>, src: Entropy, maskDefined: bool)
    ensures Evolves(sw.scene, AcrossShapes(sw, t, ss, src, maskDefined).scene)
    decreases |ss|
  {
    if !sw.aborted && ss != [] {
      var inter := IntersectRect(Some(t.box), Some(ss[0].box));
      var next := if inter.None? then sw else Resolve(sw, t, ss[0], inter.value, src(sw.pos), maskDefined);
      assert Evolves(sw.scene, next.scene);
      ShapesEvolve(next, t, ss[1..], src, maskDefined);
      EvolvesTrans(sw.scene, next.scene, AcrossShapes(next, t, ss[1..], src, maskDefined).scene);
    }
  }

  lemma {:induction false} TextsEvolve(sw: Sweep, ts: seq<Hit>, ss: seq<Hit>, src: Entropy, maskDefined: bool)
    ensures Evolves(sw.scene, AcrossTexts(sw, ts, ss, src, maskDefined).scene)
    decreases |ts|
  {
    if !sw.aborted && ts != [] {
      var mid := AcrossShapes(sw, ts[0], ss, src, maskDefined);
      ShapesEvolve(sw, ts[0], ss, src, maskDefined);
      TextsEvolve(mid, ts[1..], ss, src, maskDefined);
      EvolvesTrans(sw.scene, mid.scene, AcrossTexts(mid, ts[1..], ss, src, maskDefined).scene);
    }
  }

  // ---------------------------------------------------------------- what the pass spends

  /** Element `i` takes part in a crossing pair of `ts` and `ss`, as the text or as the shape. */
  predicate InCrossing(ts: seq<Hit>, ss: seq<Hit>, i: nat) {
    exists a, b :: 0 <= a < |ts| && 0 <= b < |ss| && Crossed(ts[a], ss[b]) && (ts[a].index == i || ss[b].index == i)
  }

  /** The inner loop spends exactly one roll per crossing pair (fewer if it throws); with the
      mask defined it never throws; without it nothing is appended; with no crossing pair it
      changes nothing; and an element in no crossing pair is left as it was. */
  lemma {:induction false} ShapesAccount(sw: Sweep, t: Hit, ss: seq<Hit>, src: Entropy, maskDefined: bool)
    requires !sw.aborted
    ensures var r := AcrossShapes(sw, t, ss, src, maskDefined);
      && |sw.scene| <= |r.scene|
      && (!r.aborted ==> r.pos == sw.pos + Crossings(t, ss))
      && r.pos <= sw.pos + Crossings(t, ss)
      && (maskDefined ==> !r.aborted)
      && (!maskDefined ==> |r.scene| == |sw.scene|)
      && (Crossings(t, ss) == 0 ==> r == sw)
      && (forall i :: 0 <= i < |sw.scene| && !InCrossing([t], ss, i) ==> r.scene[i] == sw.scene[i])
    decreases |ss|
  {
    if ss != [] {
      var inter := IntersectRect(Some(t.box), Some(ss[0].box));
      var next := if inter.None? then sw else Resolve(sw, t, ss[0], inter.value, src(sw.pos), maskDefined);
      var r := AcrossShapes(next, t, ss[1..], src, maskDefined);
      if inter.Some? {
        assert [t][0] == t && Crossed([t][0], ss[0]);
        assert InCrossing([t], ss, t.index) && InCrossing([t], ss, ss[0].index);
      }
      assert forall i :: 0 <= i < |sw.scene| && !InCrossing([t], ss, i) ==> next.scene[i] == sw.scene[i];
      assert forall i :: InCrossing([t], ss[1..], i) ==> InCrossing([t], ss, i) by {
        forall i | InCrossing([t], ss[1..], i) ensures InCrossing([t], ss, i) {
          var a, b :| 0 <= a < 1 && 0 <= b < |ss[1..]| && Crossed([t][a], ss[1..][b]) && ([t][a].index == i || ss[1..][b].index == i);
          assert ss[1..][b] == ss[b + 1];
        }
      }
      if next.aborted {
        assert r == next;
      } else {
        ShapesAccount(next, t, ss[1..], src, maskDefined);
      }
    }
  }

  /** The outer loop, likewise, over every (text, shape) pair. */
  lemma {:induction false} TextsAccount(sw: Sweep, ts: seq<Hit>, ss: seq<Hit>, src: Entropy, maskDefined: bool)
    requires !sw.aborted
    ensures var r := AcrossTexts(sw, ts, ss, src, maskDefined);
      && |sw.scene| <= |r.scene|
      && (!r.aborted ==> r.pos == sw.pos + AllCrossings(ts, ss))
      && r.pos <= sw.pos + AllCrossings(ts, ss)
      && (maskDefined ==> !r.aborted)
      && (!maskDefined ==> |r.scene| == |sw.scene|)
      && (AllCrossings(ts, ss) == 0 ==> r == sw)
      && (forall i :: 0 <= i < |sw.scene| && !InCrossing(ts, ss, i) ==> r.scene[i] == sw.scene[i])
    decreases |ts|
  {
    if ts != [] {
      var mid := AcrossShapes(sw, ts[0], ss, src, maskDefined);
      var r := AcrossTexts(mid, ts[1..], ss, src, maskDefined);
      ShapesAccount(sw, ts[0], ss, src, maskDefined);
      assert forall i :: InCrossing([ts[0]], ss, i) ==> InCrossing(ts, ss, i) by {
        forall i | InCrossing([ts[0]], ss, i) ensures InCrossing(ts, ss, i) {
          var a, b :| 0 <= a < 1 && 0 <= b < |ss| && Crossed([ts[0]][a], ss[b]) && ([ts[0]][a].index == i || ss[b].index == i);
          assert [ts[0]][a] == ts[0];
        }
      }
      assert forall i :: InCrossing(ts[1..], ss, i) ==> InCrossing(ts, ss, i) by {
        forall i | InCrossing(ts[1..], ss, i) ensures InCrossing(ts, ss, i) {
          var a, b :| 0 <= a < |ts[1..]| && 0 <= b < |ss| && Crossed(ts[1..][a], ss[b]) && (ts[1..][a].index == i || ss[b].index == i);
          assert ts[1..][a] == ts[a + 1];
        }
      }
      if mid.aborted {
        assert r == mid;
      } else {
        TextsAccount(mid, ts[1..], ss, src, maskDefined);
      }
    }
  }

  // ---------------------------------------------------------------- what each pair leaves

  /** What the roll `p` of the crossing pair (`t`, `s`) leaves in `after`, a later state of the
      scene `before` the pair was handled in: above 0.66 the mask over the overlap was appended,
      above 0.33 the text is white, otherwise the shape is white. */
  predicate Shows(before: Scene, after: Scene, t: Hit, s: Hit, p: real)
    requires Crossed(t, s)
  {
    && |before| <= |after|
    && (p > 0.66 ==> Mask(IntersectRect(Some(t.box), Some(s.box)).value) in after[|before|..])
    && (0.33 < p <= 0.66 && t.index < |before| && before[t.index].Text? ==>
         after[t.index] == Text(before[t.index].run.(fill := White)))
    && (p <= 0.33 && s.index < |before| && before[s.index].Shape? ==>
         after[s.index] == Shape(Whiten(before[s.index].shape)))
  }

  /** A pair that did not throw shows its outcome right away. */
  lemma ResolveShows(sw: Sweep, t: Hit, s: Hit, p: real, maskDefined: bool)
    requires Crossed(t, s)
    ensures var r := Resolve(sw, t, s, IntersectRect(Some(t.box), Some(s.box)).value, p, maskDefined);
      !r.aborted ==> Shows(sw.scene, r.scene, t, s, p)
  {
    var area := IntersectRect(Some(t.box), Some(s.box)).value;
    var r := Resolve(sw, t, s, area, p, maskDefined);
    if p > 0.66 && maskDefined {
      assert r.scene[|sw.scene|..] == [Mask(area)];
    }
  }

  /** A pair that did not throw still shows its outcome after any later steps. */
  lemma ResolveShowsLater(sw: Sweep, t: Hit, s: Hit, p: real, maskDefined: bool, later: Scene)
    requires Crossed(t, s)
    requires var r := Resolve(sw, t, s, IntersectRect(Some(t.box), Some(s.box)).value, p, maskDefined);
      !r.aborted && Evolves(r.scene, later)
    ensures Shows(sw.scene, later, t, s, p)
  {
    var r := Resolve(sw, t, s, IntersectRect(Some(t.box), Some(s.box)).value, p, maskDefined);
    ResolveShows(sw, t, s, p, maskDefined);
    ShowsForward(sw.scene, r.scene, later, t, s, p);
  }

  /** Later steps keep what a pair left: a white text stays white, a white shape stays white,
      and an appended mask stays where it is. */
  lemma ShowsForward(a: Scene, b: Scene, c: Scene, t: Hit, s: Hit, p: real)
    requires Crossed(t, s) && Shows(a, b, t, s, p) && Evolves(b, c)
    ensures Shows(a, c, t, s, p)
  {
    if p > 0.66 {
      var m := Mask(IntersectRect(Some(t.box), Some(s.box)).value);
      var k :| 0 <= k < |b[|a|..]| && b[|a|..][k] == m;
      assert b[|a| + k] == m && Evolved(b[|a| + k], c[|a| + k]);
      assert c[|a|..][k] == m;
    }
    if p <= 0.33 && s.index < |a| && a[s.index].Shape? {
      WhitenIdempotent(a[s.index].shape);
    }
  }

  /** What a pair left in a state reached from an earlier one holds from the earlier one too:
      steps before the pair only whitened, so whitening after them gives the same element. */
  lemma ShowsBack(a: Scene, b: Scene, c: Scene, t: Hit, s: Hit, p: real)
    requires Crossed(t, s) && Evolves(a, b) && Shows(b, c, t, s, p)
    ensures Shows(a, c, t, s, p)
  {
    if p > 0.66 {
      var m := Mask(IntersectRect(Some(t.box), Some(s.box)).value);
      var k :| 0 <= k < |c[|b|..]| && c[|b|..][k] == m;
      assert c[|a|..][|b| - |a| + k] == m;
    }
    if p <= 0.33 && s.index < |a| && a[s.index].Shape? {
      WhitenIdempotent(a[s.index].shape);
    }
  }

  /** The roll the pair (`ts[a]`, `ss[b]`) reads in a pass whose first roll is `pos`: the one
      after every crossing pair handled before it, texts in the outer loop, shapes in the inner. */
  function PairRoll(pos: nat, ts: seq<Hit>, ss: seq<Hit>, a: nat, b: nat): nat
    requires a < |ts| && b <= |ss|
  {
    pos + AllCrossings(ts[..a], ss) + Crossings(ts[a], ss[..b])
  }

  /** One step of the inner loop only whitens, appends masks, and spends a roll exactly when
      the pair crosses. */
  lemma StepEvolves(sw: Sweep, t: Hit, s: Hit, src: Entropy, maskDefined: bool)
    ensures var inter := IntersectRect(Some(t.box), Some(s.box));
      var next := if inter.None? then sw else Resolve(sw, t, s, inter.value, src(sw.pos), maskDefined);
      Evolves(sw.scene, next.scene) && next.pos == sw.pos + (if Crossed(t, s) then 1 else 0)
  {
  }

  /** Counting the crossings before shape `b` starts with the first shape. */
  lemma CrossingsStep(t: Hit, ss: seq<Hit>, b: nat)
    requires 0 < b <= |ss|
    ensures Crossings(t, ss[..b]) == (if Crossed(t, ss[0]) then 1 else 0) + Crossings(t, ss[1..][..b - 1])
  {
    assert ss[..b][0] == ss[0] && ss[..b][1..] == ss[1..][..b - 1];
  }

  /** Counting the crossing pairs before text `a` starts with the first text. */
  lemma AllCrossingsStep(ts: seq<Hit>, ss: seq<Hit>, a: nat)
    requires 0 < a <= |ts|
    ensures AllCrossings(ts[..a], ss) == Crossings(ts[0], ss) + AllCrossings(ts[1..][..a - 1], ss)
  {
    assert ts[..a][0] == ts[0] && ts[..a][1..] == ts[1..][..a - 1];
  }

  /** The inner loop, when it does not throw, leaves the outcome of the pair of `t` and shape `b`. */
  lemma {:induction false} ShapesShowAt(sw: Sweep, t: Hit, ss: seq<Hit>, src: Entropy, maskDefined: bool, b: nat)
    requires !sw.aborted && b < |ss| && Crossed(t, ss[b])
    ensures var r := AcrossShapes(sw, t, ss, src, maskDefined);
      !r.aborted ==> Shows(sw.scene, r.scene, t, ss[b], src(sw.pos + Crossings(t, ss[..b])))
    decreases |ss|
  {
    var inter := IntersectRect(Some(t.box), Some(ss[0].box));
    var next := if inter.None? then sw else Resolve(sw, t, ss[0], inter.value, src(sw.pos), maskDefined);
    var r := AcrossShapes(next, t, ss[1..], src, maskDefined);
    if next.aborted {
      assert r == next;
    } else if r.aborted {
    } else if b == 0 {
      assert ss[..0] == [];
      ShapesEvolve(next, t, ss[1..], src, maskDefined);
      ResolveShowsLater(sw, t, ss[0], src(sw.pos), maskDefined, r.scene);
    } else {
      assert ss[1..][b - 1] == ss[b];
      ShapesShowAt(next, t, ss[1..], src, maskDefined, b - 1);
      CrossingsStep(t, ss, b);
      StepEvolves(sw, t, ss[0], src, maskDefined);
      ShowsBack(sw.scene, next.scene, r.scene, t, ss[b], src(sw.pos + Crossings(t, ss[..b])));
    }
  }

  /** The inner loop, when it does not throw, leaves every crossing pair's outcome. */
  lemma ShapesShow(sw: Sweep, t: Hit, ss: seq<Hit>, src: Entropy, maskDefined: bool)
    requires !sw.aborted
    ensures var r := AcrossShapes(sw, t, ss, src, maskDefined);
      !r.aborted ==> forall b :: 0 <= b < |ss| && Crossed(t, ss[b]) ==>
        Shows(sw.scene, r.scene, t, ss[b], src(sw.pos + Crossings(t, ss[..b])))
  {
    forall b | 0 <= b < |ss| && Crossed(t, ss[b])
      ensures var r := AcrossShapes(sw, t, ss, src, maskDefined);
        !r.aborted ==> Shows(sw.scene, r.scene, t, ss[b], src(sw.pos + Crossings(t, ss[..b])))
    {
      ShapesShowAt(sw, t, ss, src, maskDefined, b);
    }
  }

  /** The outer loop, when it does not throw, leaves the outcome of the pair of text `a` and
      shape `b`. */
  lemma {:induction false} TextsShowAt(sw: Sweep, ts: seq<Hit>, ss: seq<Hit>, src: Entropy, maskDefined: bool, a: nat, b: nat)
    requires !sw.aborted && a < |ts| && b < |ss| && Crossed(ts[a], ss[b])
    ensures var r := AcrossTexts(sw, ts, ss, src, maskDefined);
      !r.aborted ==> Shows(sw.scene, r.scene, ts[a], ss[b], src(PairRoll(sw.pos, ts, ss, a, b)))
    decreases |ts|
  {
    var mid := AcrossShapes(sw, ts[0], ss, src, maskDefined);
    var r := AcrossTexts(mid, ts[1..], ss, src, maskDefined);
    if mid.aborted {
      assert r == mid;
    } else if r.aborted {
    } else if a == 0 {
      assert ts[..0] == [];
      ShapesShowAt(sw, ts[0], ss, src, maskDefined, b);
      TextsEvolve(mid, ts[1..], ss, src, maskDefined);
      ShowsForward(sw.scene, mid.scene, r.scene, ts[0], ss[b], src(PairRoll(sw.pos, ts, ss, a, b)));
    } else {
      assert ts[1..][a - 1] == ts[a];
      TextsShowAt(mid, ts[1..], ss, src, maskDefined, a - 1, b);
      ShapesAccount(sw, ts[0], ss, src, maskDefined);
      AllCrossingsStep(ts, ss, a);
      assert PairRoll(sw.pos, ts, ss, a, b) == PairRoll(mid.pos, ts[1..], ss, a - 1, b);
      ShapesEvolve(sw, ts[0], ss, src, maskDefined);
      ShowsBack(sw.scene, mid.scene, r.scene, ts[a], ss[b], src(PairRoll(sw.pos, ts, ss, a, b)));
    }
  }

  /** The outer loop, when it does not throw, leaves every crossing pair's outcome. */
  lemma TextsShow(sw: Sweep, ts: seq<Hit>, ss: seq<Hit>, src: Entropy, maskDefined: bool)
    requires !sw.aborted
    ensures var r := AcrossTexts(sw, ts, ss, src, maskDefined);
      !r.aborted ==> forall a, b :: 0 <= a < |ts| && 0 <= b < |ss| && Crossed(ts[a], ss[b]) ==>
        Shows(sw.scene, r.scene, ts[a], ss[b], src(PairRoll(sw.pos, ts, ss, a, b)))
  {
    forall a, b | 0 <= a < |ts| && 0 <= b < |ss| && Crossed(ts[a], ss[b])
      ensures var r := AcrossTexts(sw, ts, ss, src, maskDefined);
        !r.aborted ==> Shows(sw.scene, r.scene, ts[a], ss[b], src(PairRoll(sw.pos, ts, ss, a, b)))
    {
      TextsShowAt(sw, ts, ss, src, maskDefined, a, b);
    }
  }

  // ---------------------------------------------------------------- the pass as a whole

  /** An element the pass can reach: a text or a top-level group that measures to a box. */
  predicate Touchable(e: Element, measure: Element -> Option<Box>) {
    (OfKind(e, TextKind) || OfKind(e, GroupKind)) && measure(e).Some?
  }

  /** The pass keeps every element where it was, only whitening texts and shapes, and appends
      nothing but masks of positive area. */
  lemma PassKeepsLayout(scene: Scene, measure: Element -> Option<Box>, src: Entropy, pos: nat, maskDefined: bool)
    ensures Evolves(scene, Pass(scene, measure, src, pos, maskDefined).scene)
  {
    TextsEvolve(Sweep(scene, pos, false), Collect(scene, measure, TextKind, 0), Collect(scene, measure, GroupKind, 0), src, maskDefined);
  }

  /** One roll per crossing (text, group) pair; the corrected pass never throws while the
      pass as written appends nothing; without crossings nothing changes; an element in no
      crossing pair is left as it was, even when other pairs cross; so elements that are neither
      measurable texts nor measurable top-level groups are never touched. */
  lemma PassAccount(scene: Scene, measure: Element -> Option<Box>, src: Entropy, pos: nat, maskDefined: bool)
    ensures var ts, ss := Collect(scene, measure, TextKind, 0), Collect(scene, measure, GroupKind, 0);
      var r := Pass(scene, measure, src, pos, maskDefined);
      && (!r.aborted ==> r.pos == pos + AllCrossings(ts, ss))
      && (maskDefined ==> !r.aborted)
      && (!maskDefined ==> |r.scene| == |scene|)
      && (AllCrossings(ts, ss) == 0 ==> r.scene == scene && r.pos == pos)
      && |scene| <= |r.scene|
      && (forall i :: 0 <= i < |scene| && !InCrossing(ts, ss, i) ==> r.scene[i] == scene[i])
      && (forall i :: 0 <= i < |scene| && !Touchable(scene[i], measure) ==> r.scene[i] == scene[i])
  {
    var ts, ss := Collect(scene, measure, TextKind, 0), Collect(scene, measure, GroupKind, 0);
    TextsAccount(Sweep(scene, pos, false), ts, ss, src, maskDefined);
    CrossingsTouchable(scene, measure);
  }

  /** What the pass does to each crossing pair, when it runs to its end: for the pair's roll
      `p`, above 0.66 the mask over the overlap is among the appended elements (and the mask
      exists), above 0.33 the text is white, otherwise every descendant of the group is white --
      whatever later pairs did. */
  lemma PassShows(scene: Scene, measure: Element -> Option<Box>, src: Entropy, pos: nat, maskDefined: bool)
    ensures var ts, ss := Collect(scene, measure, TextKind, 0), Collect(scene, measure, GroupKind, 0);
      var r := Pass(scene, measure, src, pos, maskDefined);
      !r.aborted ==> |scene| <= |r.scene| && forall a, b :: 0 <= a < |ts| && 0 <= b < |ss| && Crossed(ts[a], ss[b]) ==>
        && (src(PairRoll(pos, ts, ss, a, b)) > 0.66 ==>
             maskDefined && Mask(IntersectRect(Some(ts[a].box), Some(ss[b].box)).value) in r.scene[|scene|..])
        && (0.33 < src(PairRoll(pos, ts, ss, a, b)) <= 0.66 ==>
             r.scene[ts[a].index] == Text(scene[ts[a].index].run.(fill := White)))
        && (src(PairRoll(pos, ts, ss, a, b)) <= 0.33 ==>
             r.scene[ss[b].index] == Shape(Whiten(scene[ss[b].index].shape)))
  {
    var ts, ss := Collect(scene, measure, TextKind, 0), Collect(scene, measure, GroupKind, 0);
    var r := Pass(scene, measure, src, pos, maskDefined);
    TextsShow(Sweep(scene, pos, false), ts, ss, src, maskDefined);
    PassAccount(scene, measure, src, pos, maskDefined);
  }

  /** Only measurable texts and top-level groups take part in a crossing pair. */
  lemma CrossingsTouchable(scene: Scene, measure: Element -> Option<Box>)
    ensures var ts, ss := Collect(scene, measure, TextKind, 0), Collect(scene, measure, GroupKind, 0);
      forall i :: 0 <= i < |scene| && InCrossing(ts, ss, i) ==> Touchable(scene[i], measure)
  {
    var ts, ss := Collect(scene, measure, TextKind, 0), Collect(scene, measure, GroupKind, 0);
    forall i | 0 <= i < |scene| && InCrossing(ts, ss, i)
      ensures Touchable(scene[i], measure)
    {
      var a, b :| 0 <= a < |ts| && 0 <= b < |ss| && Crossed(ts[a], ss[b]) && (ts[a].index == i || ss[b].index == i);
    }
  }

  /** Where the pass as written does not throw, it did exactly what the corrected pass does:
      the two differ only at the first mask roll. */
  lemma {:induction false} ShapesAgree(sw: Sweep, t: Hit, ss: seq<Hit>, src: Entropy)
    requires !sw.aborted
    ensures var a := AcrossShapes(sw, t, ss, src, false);
      !a.aborted ==> a == AcrossShapes(sw, t, ss, src, true)
    decreases |ss|
  {
    if ss != [] {
      var inter := IntersectRect(Some(t.box), Some(ss[0].box));
      var next := if inter.None? then sw else Resolve(sw, t, ss[0], inter.value, src(sw.pos), false);
      var next' := if inter.None? then sw else Resolve(sw, t, ss[0], inter.value, src(sw.pos), true);
      if !next.aborted {
        assert next == next';
        ShapesAgree(next, t, ss[1..], src);
      }
    }
  }

  lemma {:induction false} TextsAgree(sw: Sweep, ts: seq<Hit>, ss: seq<Hit>, src: Entropy)
    requires !sw.aborted
    ensures var a := AcrossTexts(sw, ts, ss, src, false);
      !a.aborted ==> a == AcrossTexts(sw, ts, ss, src, true)
    decreases |ts|
  {
    if ts != [] {
      var mid := AcrossShapes(sw, ts[0], ss, src, false);
      ShapesAgree(sw, ts[0], ss, src);
      if !mid.aborted {
        TextsAgree(mid, ts[1..], ss, src);
      }
    }
  }

  /** The pass as written, when it finishes, equals the corrected pass. */
  lemma PassAgree(scene: Scene, measure: Element -> Option<Box>, src: Entropy, pos: nat)
    ensures var a := Pass(scene, measure, src, pos, false);
      !a.aborted ==> a == Pass(scene, measure, src, pos, true)
  {
    TextsAgree(Sweep(scene, pos, false), Collect(scene, measure, TextKind, 0), Collect(scene, measure, GroupKind, 0), src);
  }

  /** A white canvas holding a text and a top-level group. */
  function ExampleScene(): Scene {
    [Background(200.0, 200.0), Text(TextRun("A", 0.0, 20.0, 20.0, Start, 900, Black, [])), Shape(ShapeInst(true, [], []))]
  }

  /** The text measures (0, 0, 100, 20), the group (50, 10, 100, 20). */
  function ExampleMeasure(): Element -> Option<Box> {
    (e: Element) => match e
      case Text(_) => Some(Box(0.0, 0.0, 100.0, 20.0))
      case Shape(_) => Some(Box(50.0, 10.0, 100.0, 20.0))
      case _ => None
  }

  /** Every roll is 0.9. */
  function ExampleSrc(): Entropy {
    (n: nat) => 0.9
  }

  /** The example has one crossing pair: the text at index 1 and the group at index 2. */
  lemma ExampleHits()
    ensures Collect(ExampleScene(), ExampleMeasure(), TextKind, 0) == [Hit(1, Box(0.0, 0.0, 100.0, 20.0))]
    ensures Collect(ExampleScene(), ExampleMeasure(), GroupKind, 0) == [Hit(2, Box(50.0, 10.0, 100.0, 20.0))]
  {
    var scene, measure := ExampleScene(), ExampleMeasure();
    assert Collect(scene, measure, TextKind, 2) == [];
    assert Collect(scene, measure, GroupKind, 2) == [Hit(2, Box(50.0, 10.0, 100.0, 20.0))];
  }

  /** On the example the pass as written throws at its first roll, 0.9 being above 0.66. */
  lemma MaskRollAsWritten()
    ensures Pass(ExampleScene(), ExampleMeasure(), ExampleSrc(), 0, false) == Sweep(ExampleScene(), 1, true)
  {
    ExampleHits();
    IntersectExample();
  }

  /** On the example the corrected pass masks the overlap (50, 10, 50, 10) and finishes. */
  lemma MaskRollCorrected()
    ensures Pass(ExampleScene(), ExampleMeasure(), ExampleSrc(), 0, true)
         == Sweep(ExampleScene() + [Mask(Box(50.0, 10.0, 50.0, 10.0))], 1, false)
  {
    ExampleHits();
    IntersectExample();
  }

  /** The discrepancy on one input: where the pass as written throws, the corrected pass masks
      the overlap and carries on. */
  lemma MaskRollExample()
    ensures Pass(ExampleScene(), ExampleMeasure(), ExampleSrc(), 0, false).aborted
    ensures !Pass(ExampleScene(), ExampleMeasure(), ExampleSrc(), 0, true).aborted
    ensures Pass(ExampleScene(), ExampleMeasure(), ExampleSrc(), 0, true).scene
         == ExampleScene() + [Mask(Box(50.0, 10.0, 50.0, 10.0))]
  {
    MaskRollAsWritten();
    MaskRollCorrected();
  }
}
