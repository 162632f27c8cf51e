/** Splitting the input into words, `(text||'').trim().split(/\s+/).filter(Boolean)`
    (script.js:192), joining them back (`join(' ')`), and the case changes of script.js:343. */
module Words {

  /** JavaScript's `\s` (and what `trim` removes): the white-space and line-terminator
      code points of ECMAScript. */
  predicate IsSpace(c: char) {
    var n := c as int;
    || 9 <= n <= 13 || n == 32 || n == 0xA0 || n == 0x1680
    || 0x2000 <= n <= 0x200A || n == 0x2028 || n == 0x2029
    || n == 0x202F || n == 0x205F || n == 0x3000 || n == 0xFEFF
  }

  /** No character of `s` is white space. */
  predicate SpaceFree(s: string) {
    forall k :: 0 <= k < |s| ==> !IsSpace(s[k])
  }

  /** A non-empty run of characters none of which is white space. */
  predicate IsWord(w: string) {
    |w| > 0 && SpaceFree(w)
  }

  /** The split as a left-to-right scan: `cur` is the word being read; white space ends it. */
  function Scan(s: string, cur: string): seq<string>
    decreases |s|
  {
    if s == [] then (if cur == [] then [] else [cur])
    else if IsSpace(s[0]) then (if cur == [] then Scan(s[1..], []) else [cur] + Scan(s[1..], []))
    else Scan(s[1..], cur + [s[0]])
  }

  /** The words of a text: its maximal runs of non-white-space characters, in order. */
  function Split(s: string): seq<string> {
    Scan(s, [])
  }

  /** Words joined by `sep`, as `Array.prototype.join` does. */
  function Join(ws: seq<string>, sep: string): string
    decreases |ws|
  {
    if |ws| == 0 then []
    else if |ws| == 1 then ws[0]
    else ws[0] + sep + Join(ws[1..], sep)
  }

  /** Every piece the scan yields is a word: non-empty and free of white space. */
  lemma {:induction false} ScanYieldsWords(s: string, cur: string)
    requires SpaceFree(cur)
    ensures forall k :: 0 <= k < |Scan(s, cur)| ==> IsWord(Scan(s, cur)[k])
    decreases |s|
  {
    if s == [] {
    } else if IsSpace(s[0]) {
      ScanYieldsWords(s[1..], []);
    } else {
      assert SpaceFree(cur + [s[0]]);
      ScanYieldsWords(s[1..], cur + [s[0]]);
    }
  }

  /** Every word of a text is non-empty and free of white space. */
  lemma SplitYieldsWords(s: string)
    ensures forall k :: 0 <= k < |Split(s)| ==> IsWord(Split(s)[k])
  {
    ScanYieldsWords(s, []);
  }

  /** The scan yields nothing exactly when no word is pending and the rest is all white space. */
  lemma {:induction false} ScanEmptyIff(s: string, cur: string)
    ensures Scan(s, cur) == [] <==> cur == [] && forall k :: 0 <= k < |s| ==> IsSpace(s[k])
    decreases |s|
  {
    if s != [] {
      if IsSpace(s[0]) {
        ScanEmptyIff(s[1..], []);
        assert forall k :: 1 <= k < |s| ==> s[k] == s[1..][k - 1];
      } else {
        ScanEmptyIff(s[1..], cur + [s[0]]);
      }
    }
  }

  /** A text has no words exactly when it is all white space. */
  lemma NoWordsIffBlank(s: string)
    ensures Split(s) == [] <==> forall k :: 0 <= k < |s| ==> IsSpace(s[k])
  {
    ScanEmptyIff(s, []);
  }

  /** Reading a white-space-free stretch only extends the pending word. */
  lemma {:induction false} ScanThrough(w: string, tail: string, cur: string)
    requires SpaceFree(w)
    ensures Scan(w + tail, cur) == Scan(tail, cur + w)
    decreases |w|
  {
    if w == [] {
      assert w + tail == tail && cur + w == cur;
    } else {
      assert (w + tail)[0] == w[0] && (w + tail)[1..] == w[1..] + tail;
      ScanThrough(w[1..], tail, cur + [w[0]]);
      assert cur + [w[0]] + w[1..] == cur + w;
    }
  }

  /** Splitting undoes joining with a single space: the words come back unchanged. */
  lemma {:induction false} SplitJoin(ws: seq<string>)
    requires forall k :: 0 <= k < |ws| ==> IsWord(ws[k])
    ensures Split(Join(ws, " ")) == ws
    decreases |ws|
  {
    if |ws| == 1 {
      ScanThrough(ws[0], [], []);
      assert ws[0] + [] == ws[0] && [] + ws[0] == ws[0];
    } else if |ws| > 1 {
      var rest := Join(ws[1..], " ");
      assert Join(ws, " ") == ws[0] + (" " + rest);
      ScanThrough(ws[0], " " + rest, []);
      assert [] + ws[0] == ws[0];
      assert (" " + rest)[1..] == rest;
      assert Scan(" " + rest, ws[0]) == [ws[0]] + Scan(rest, []);
      SplitJoin(ws[1..]);
      assert [ws[0]] + ws[1..] == ws;
    }
  }

  /** The two-word example: "HELLO WORLD" splits into HELLO and WORLD. */
  lemma HelloWorld()
    ensures Split("HELLO WORLD") == ["HELLO", "WORLD"]
  {
    assert IsWord("HELLO") && IsWord("WORLD");
    assert Join(["HELLO", "WORLD"], " ") == "HELLO WORLD";
    SplitJoin(["HELLO", "WORLD"]);
  }

  // ---------------------------------------------------------------- words between gaps

  /** Every character of `s` is white space. */
  predicate Blank(s: string) {
    forall k :: 0 <= k < |s| ==> IsSpace(s[k])
  }

  /** The text `gaps[0] + ws[0] + gaps[1] + ... + ws[n-1] + gaps[n]`. */
  function Weave(gaps: seq<string>, ws: seq<string>): string
    requires |gaps| == |ws| + 1
    decreases |ws|
  {
    if |ws| == 0 then gaps[0] else gaps[0] + ws[0] + Weave(gaps[1..], ws[1..])
  }

  /** Words separated by white space: every gap is blank, the ones between two words are not
      empty, and every word is a word. */
  predicate Layout(gaps: seq<string>, ws: seq<string>) {
    && |gaps| == |ws| + 1
    && (forall k :: 0 <= k < |gaps| ==> Blank(gaps[k]))
    && (forall k :: 0 < k < |ws| ==> gaps[k] != [])
    && (forall k :: 0 <= k < |ws| ==> IsWord(ws[k]))
  }

  /** Reading a non-empty blank stretch ends the pending word, if any. */
  lemma {:induction false} ScanGap(gap: string, rest: string, cur: string)
    requires Blank(gap) && gap != []
    ensures Scan(gap + rest, cur) == (if cur == [] then [] else [cur]) + Scan(rest, [])
    decreases |gap|
  {
    assert (gap + rest)[0] == gap[0] && (gap + rest)[1..] == gap[1..] + rest;
    if |gap| == 1 {
      assert gap[1..] + rest == rest;
    } else {
      ScanGap(gap[1..], rest, []);
    }
  }

  /** Splitting a text laid out as words between blank gaps gives exactly those words. */
  lemma {:induction false} SplitWeave(gaps: seq<string>, ws: seq<string>)
    requires Layout(gaps, ws)
    ensures Split(Weave(gaps, ws)) == ws
    decreases |ws|
  {
    var g0 := gaps[0];
    if |ws| == 0 {
      if g0 != [] {
        ScanGap(g0, [], []);
        assert g0 + [] == g0;
      }
    } else {
      var tail := Weave(gaps[1..], ws[1..]);
      assert Weave(gaps, ws) == g0 + (ws[0] + tail);
      if g0 != [] {
        ScanGap(g0, ws[0] + tail, []);
      }
      ScanThrough(ws[0], tail, []);
      assert [] + ws[0] == ws[0];
      assert Layout(gaps[1..], ws[1..]);
      SplitWeave(gaps[1..], ws[1..]);
      if |ws| == 1 {
        if gaps[1] != [] {
          ScanGap(gaps[1], [], ws[0]);
          ScanGap(gaps[1], [], []);
          assert gaps[1] + [] == gaps[1];
        }
      } else {
        assert tail == gaps[1] + (ws[1] + Weave(gaps[2..], ws[2..])) by {
          assert gaps[1..][1..] == gaps[2..] && ws[1..][1..] == ws[2..];
        }
        ScanGap(gaps[1], ws[1] + Weave(gaps[2..], ws[2..]), ws[0]);
        ScanGap(gaps[1], ws[1] + Weave(gaps[2..], ws[2..]), []);
      }
      assert [ws[0]] + ws[1..] == ws;
    }
  }

  /** A leading white-space character joins the first gap. */
  lemma WeaveIntoGap(c: char, gaps: seq<string>, ws: seq<string>)
    requires Layout(gaps, ws) && IsSpace(c)
    ensures Layout([[c] + gaps[0]] + gaps[1..], ws)
    ensures Weave([[c] + gaps[0]] + gaps[1..], ws) == [c] + Weave(gaps, ws)
  {
    var g := [[c] + gaps[0]] + gaps[1..];
    assert g[1..] == gaps[1..];
    assert forall k :: 0 < k < |g| ==> g[k] == gaps[k];
  }

  /** A leading word character joins the first word when no gap comes before it. */
  lemma WeaveIntoWord(c: char, gaps: seq<string>, ws: seq<string>)
    requires Layout(gaps, ws) && !IsSpace(c) && gaps[0] == [] && |ws| > 0
    ensures Layout(gaps, [[c] + ws[0]] + ws[1..])
    ensures Weave(gaps, [[c] + ws[0]] + ws[1..]) == [c] + Weave(gaps, ws)
  {
    var w := [[c] + ws[0]] + ws[1..];
    assert w[1..] == ws[1..];
    assert forall k :: 0 < k < |w| ==> w[k] == ws[k];
    assert IsWord(w[0]);
  }

  /** Otherwise a leading word character starts a new word, before an empty gap. */
  lemma WeaveNewWord(c: char, gaps: seq<string>, ws: seq<string>)
    requires Layout(gaps, ws) && !IsSpace(c) && (gaps[0] != [] || |ws| == 0)
    ensures Layout([[]] + gaps, [[c]] + ws)
    ensures Weave([[]] + gaps, [[c]] + ws) == [c] + Weave(gaps, ws)
  {
    var g, w := [[]] + gaps, [[c]] + ws;
    assert g[1..] == gaps && w[1..] == ws;
    assert forall k :: 0 < k < |g| ==> g[k] == gaps[k - 1];
    assert forall k :: 0 < k < |w| ==> w[k] == ws[k - 1];
  }

  /** A text taken apart into blank gaps and the words between them, read from the front. */
  function Decompose(s: string): (d: (seq<string>, seq<string>))
    ensures Layout(d.0, d.1) && Weave(d.0, d.1) == s
    decreases |s|
  {
    if s == [] then ([[]], [])
    else
      var rest := Decompose(s[1..]);
      var gaps, ws := rest.0, rest.1;
      assert s == [s[0]] + s[1..];
      if IsSpace(s[0]) then
        WeaveIntoGap(s[0], gaps, ws);
        ([[s[0]] + gaps[0]] + gaps[1..], ws)
      else if gaps[0] == [] && |ws| > 0 then
        WeaveIntoWord(s[0], gaps, ws);
        (gaps, [[s[0]] + ws[0]] + ws[1..])
      else
        WeaveNewWord(s[0], gaps, ws);
        ([[]] + gaps, [[s[0]]] + ws)
  }

  /** What splitting means for any text: the text is its words with blank gaps between them,
      non-empty between two words, and the split returns exactly those words. */
  lemma SplitIsWordsBetweenGaps(s: string)
    ensures var d := Decompose(s);
      Layout(d.0, d.1) && Weave(d.0, d.1) == s && Split(s) == d.1
  {
    var d := Decompose(s);
    SplitWeave(d.0, d.1);
  }

  // ---------------------------------------------------------------- case

  /** `toUpperCase` on the ASCII letters; every other character is kept. */
  function Upper(s: string): (r: string)
    ensures |r| == |s|
    ensures forall k :: 0 <= k < |r| ==> !('a' <= r[k] <= 'z')
    ensures forall k :: 0 <= k < |r| && !('a' <= s[k] <= 'z') ==> r[k] == s[k]
    ensures forall k :: 0 <= k < |r| && 'a' <= s[k] <= 'z' ==> 'A' <= r[k] <= 'Z' && r[k] as int - 'A' as int == s[k] as int - 'a' as int
  {
    seq(|s|, k requires 0 <= k < |s| => if 'a' <= s[k] <= 'z' then (s[k] as int - 32) as char else s[k])
  }

  /** `toLowerCase` on the ASCII letters; every other character is kept. */
  function Lower(s: string): (r: string)
    ensures |r| == |s|
    ensures forall k :: 0 <= k < |r| ==> !('A' <= r[k] <= 'Z')
    ensures forall k :: 0 <= k < |r| && !('A' <= s[k] <= 'Z') ==> r[k] == s[k]
    ensures forall k :: 0 <= k < |r| && 'A' <= s[k] <= 'Z' ==> 'a' <= r[k] <= 'z' && r[k] as int - 'a' as int == s[k] as int - 'A' as int
  {
    seq(|s|, k requires 0 <= k < |s| => if 'A' <= s[k] <= 'Z' then (s[k] as int + 32) as char else s[k])
  }

  /** The case of row `i` of the multiplied column: upper on even rows, lower on odd ones. */
  function RowCase(word: string, i: nat): string {
    if i % 2 == 0 then Upper(word) else Lower(word)
  }

  /** Changing case keeps the word a word: no white space is created or removed. */
  lemma CaseKeepsWord(w: string)
    requires IsWord(w)
    ensures IsWord(Upper(w)) && IsWord(Lower(w))
  {
  }

  /** Case changes are idempotent, and each undoes the other on letters: lower-casing an
      upper-cased word gives the lower-cased word, and the other way round. */
  lemma CaseRoundTrip(s: string)
    ensures Upper(Upper(s)) == Upper(s) && Lower(Lower(s)) == Lower(s)
    ensures Lower(Upper(s)) == Lower(s) && Upper(Lower(s)) == Upper(s)
  {
    assert Upper(Upper(s)) == Upper(s);
    assert Lower(Lower(s)) == Lower(s);
    assert forall k :: 0 <= k < |s| ==> Lower(Upper(s))[k] == Lower(s)[k];
    assert forall k :: 0 <= k < |s| ==> Upper(Lower(s))[k] == Upper(s)[k];
  }
}
