/** The poster's physical height, grown from the length of the text (script.js:19-20, 41-45). */
module PosterHeight {
  import opened JsNumbers

  /** The shortest poster, in millimetres. */
  const MinHeightMm: int := 150

  /** Millimetres of height added per character: 1.45 = 29/20, exactly. */
  const MmPerChar: real := 1.45

  /** `computeHeightMm(text)`: the minimum plus the rounded per-character growth, never below
      the minimum. The result equals an integer-only formula: round(29n/20) == (29n + 10) div 20. */
  function ComputeHeightMm(text: string): (mm: int)
    ensures mm >= MinHeightMm
    ensures mm == MinHeightMm + (29 * |text| + 10) / 20
  {
    var desired := MinHeightMm + JsRound(|text| as real * MmPerChar);
    RoundedGrowth(|text|);
    if MinHeightMm >= desired then MinHeightMm else desired
  }

  /** The rounded growth term in integers. */
  lemma RoundedGrowth(n: nat)
    ensures JsRound(n as real * MmPerChar) == (29 * n + 10) / 20
  {
    assert n as real * MmPerChar + 0.5 == (29 * n + 10) as real / 20 as real;
    FloorOfQuotient(29 * n + 10, 20);
  }

  /** For every text, the growth term is non-negative, so the `Math.max` never changes the result. */
  lemma MaxIsRedundant(text: string)
    ensures ComputeHeightMm(text) == MinHeightMm + JsRound(|text| as real * MmPerChar)
  {
    RoundedGrowth(|text|);
  }

  /** A longer text never gives a shorter poster. */
  lemma HeightMonotone(shorter: string, longer: string)
    requires |shorter| <= |longer|
    ensures ComputeHeightMm(shorter) <= ComputeHeightMm(longer)
  {
  }
}
