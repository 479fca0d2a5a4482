/** The overall-confidence input: the clamp applied to what the agent types, and
    the three-level reading shown beneath it. */
module Confidence {

  /** The outcome of parsing the typed text as an integer; `NotANumber` is NaN. */
  datatype Parsed = NotANumber | Number(value: int)

  /** `Math.max(0, Math.min(100, parsed || 0))`: NaN (and 0) fall back to 0, then the
      value is confined to the percentage range. */
  function ClampConfidence(p: Parsed): (r: int)
    ensures 0 <= r <= 100
    ensures p.NotANumber? ==> r == 0
    ensures p.Number? && 0 <= p.value <= 100 ==> r == p.value
    ensures p.Number? && p.value > 100 ==> r == 100
    ensures p.Number? && p.value < 0 ==> r == 0
  {
    var v := if p.NotANumber? || p.value == 0 then 0 else p.value;
    if v > 100 then 100 else if v < 0 then 0 else v
  }

  /** Clamping an already clamped value changes nothing. */
  lemma ClampIdempotent(p: Parsed)
    ensures ClampConfidence(Number(ClampConfidence(p))) == ClampConfidence(p)
  {
  }

  /** Clamping never reverses the order of two typed numbers. */
  lemma ClampMonotone(m: int, n: int)
    requires m <= n
    ensures ClampConfidence(Number(m)) <= ClampConfidence(Number(n))
  {
  }

  datatype Level = High | Moderate | Low

  /** The reading shown under the score: at least 90 is high, at least 75 moderate. */
  function LevelOf(c: int): (l: Level)
    ensures l == High <==> c >= 90
    ensures l == Moderate <==> 75 <= c < 90
    ensures l == Low <==> c < 75
  {
    if c >= 90 then High else if c >= 75 then Moderate else Low
  }

  /** The reading's text opens with its level's name, so the three texts differ. */
  function LevelText(l: Level): (t: string)
    ensures |t| > 0
    ensures t[0] == 'H' <==> l == High
    ensures t[0] == 'M' <==> l == Moderate
    ensures t[0] == 'L' <==> l == Low
  {
    match l
    case High => "High confidence - assessment is reliable"
    case Moderate => "Moderate confidence - review recommended"
    case Low => "Low confidence - manual review required"
  }

  function Rank(l: Level): nat {
    match l
    case Low => 0
    case Moderate => 1
    case High => 2
  }

  /** A higher score never reads as a lower level. */
  lemma LevelMonotone(c: int, d: int)
    requires c <= d
    ensures Rank(LevelOf(c)) <= Rank(LevelOf(d))
  {
  }

  /** The initial score of 92 reads as high confidence. */
  lemma InitialLevel()
    ensures LevelText(LevelOf(92)) == "High confidence - assessment is reliable"
  {
  }
}
