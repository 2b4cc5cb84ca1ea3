/** The personality-trait classifiers: humor, technicality, empathy and
    confidence, each a chain of threshold tests on cue counts per message. */
module PersonalityTraits {
  import opened JsNumber
  import opened ToneProfileTypes

  /** `analyzeHumor`: a sarcasm cue decides first; then humor cues above 0.3
      per message are heavy, above 0.2 moderate, above 0.1 subtle, and
      anything less none. `playful` is never produced. */
  function AnalyzeHumor(humorCount: nat, sarcasm: bool, totalMsgs: nat): (r: Humor)
    ensures r.Sarcastic? <==> sarcasm
    ensures r.Heavy? <==> !sarcasm && RateAbove(humorCount, totalMsgs, 3, 10)
    ensures r.Moderate? <==> (!sarcasm && !RateAbove(humorCount, totalMsgs, 3, 10)
      && RateAbove(humorCount, totalMsgs, 1, 5))
    ensures r.Subtle? <==> (!sarcasm && !RateAbove(humorCount, totalMsgs, 1, 5)
      && RateAbove(humorCount, totalMsgs, 1, 10))
    ensures r.None? <==> !sarcasm && !RateAbove(humorCount, totalMsgs, 1, 10)
    ensures !r.Playful?
  {
    var humorRate := Quotient(humorCount as real, totalMsgs as real);
    RateComparisons(humorCount, totalMsgs, 3, 10);
    RateComparisons(humorCount, totalMsgs, 1, 5);
    RateComparisons(humorCount, totalMsgs, 1, 10);
    if sarcasm then Humor.Sarcastic
    else if Greater(humorRate, 0.3) then Humor.Heavy
    else if Greater(humorRate, 0.2) then Humor.Moderate
    else if Greater(humorRate, 0.1) then Humor.Subtle
    else Humor.None
  }

  /** `analyzeTechnicality`: technical terms above 0.1, 0.05, 0.02 and 0.01
      per message are expert, advanced, intermediate and basic; anything
      less is non-technical. */
  function AnalyzeTechnicality(technicalCount: nat, totalMsgs: nat): (r: Technicality)
    ensures r.Expert? <==> RateAbove(technicalCount, totalMsgs, 1, 10)
    ensures r.Advanced? <==> !RateAbove(technicalCount, totalMsgs, 1, 10) && RateAbove(technicalCount, totalMsgs, 1, 20)
    ensures r.Intermediate? <==> !RateAbove(technicalCount, totalMsgs, 1, 20) && RateAbove(technicalCount, totalMsgs, 1, 50)
    ensures r.Basic? <==> !RateAbove(technicalCount, totalMsgs, 1, 50) && RateAbove(technicalCount, totalMsgs, 1, 100)
    ensures r.NonTechnical? <==> !RateAbove(technicalCount, totalMsgs, 1, 100)
  {
    var technicalRate := Quotient(technicalCount as real, totalMsgs as real);
    RateComparisons(technicalCount, totalMsgs, 1, 10);
    RateComparisons(technicalCount, totalMsgs, 1, 20);
    RateComparisons(technicalCount, totalMsgs, 1, 50);
    RateComparisons(technicalCount, totalMsgs, 1, 100);
    if Greater(technicalRate, 0.1) then Technicality.Expert
    else if Greater(technicalRate, 0.05) then Technicality.Advanced
    else if Greater(technicalRate, 0.02) then Technicality.Intermediate
    else if Greater(technicalRate, 0.01) then Technicality.Basic
    else Technicality.NonTechnical
  }

  /** The technicality levels in increasing order. */
  function TechnicalityRank(t: Technicality): nat {
    match t
    case NonTechnical => 0
    case Basic => 1
    case Intermediate => 2
    case Advanced => 3
    case Expert => 4
  }

  /** More technical terms over the same number of messages never give a
      lower technicality level. */
  lemma TechnicalityMonotone(t1: nat, t2: nat, totalMsgs: nat)
    requires t1 <= t2
    ensures TechnicalityRank(AnalyzeTechnicality(t1, totalMsgs)) <= TechnicalityRank(AnalyzeTechnicality(t2, totalMsgs))
  {
    RateAboveMonotone(t1, t2, totalMsgs, 1, 10);
    RateAboveMonotone(t1, t2, totalMsgs, 1, 20);
    RateAboveMonotone(t1, t2, totalMsgs, 1, 50);
    RateAboveMonotone(t1, t2, totalMsgs, 1, 100);
  }

  lemma RateAboveMonotone(c1: nat, c2: nat, total: nat, p: nat, q: nat)
    requires c1 <= c2
    ensures RateAbove(c1, total, p, q) ==> RateAbove(c2, total, p, q)
  {
    assert q * c1 <= q * c2 by { MultiplyMonotone(q, c1, c2); }
  }

  lemma MultiplyMonotone(q: nat, a: nat, b: nat)
    requires a <= b
    ensures q * a <= q * b
  {
    assert q * b == q * a + q * (b - a);
  }

  /** `analyzeEmpathy`: empathy cues above 0.15 per message are very high,
      above 0.1 high, below 0.05 low, and the rest moderate. With no
      message and no cue the rate is NaN, which is below nothing, so the
      label is moderate. */
  function AnalyzeEmpathy(empathyCount: nat, totalMsgs: nat): (r: Empathy)
    ensures r.VeryHigh? <==> RateAbove(empathyCount, totalMsgs, 3, 20)
    ensures r.High? <==> !RateAbove(empathyCount, totalMsgs, 3, 20) && RateAbove(empathyCount, totalMsgs, 1, 10)
    ensures r.Low? <==> RateBelow(empathyCount, totalMsgs, 1, 20)
    ensures r.Moderate? <==> !RateAbove(empathyCount, totalMsgs, 1, 10) && !RateBelow(empathyCount, totalMsgs, 1, 20)
    ensures totalMsgs == 0 && empathyCount == 0 ==> r.Moderate?
  {
    var empathyRate := Quotient(empathyCount as real, totalMsgs as real);
    RateComparisons(empathyCount, totalMsgs, 3, 20);
    RateComparisons(empathyCount, totalMsgs, 1, 10);
    RateComparisons(empathyCount, totalMsgs, 1, 20);
    if Greater(empathyRate, 0.15) then Empathy.VeryHigh
    else if Greater(empathyRate, 0.1) then Empathy.High
    else if Less(empathyRate, 0.05) then Empathy.Low
    else Empathy.Moderate
  }

  /** `analyzeConfidence`: confidence cues more than twice the uncertainty
      cues are assertive, more than them confident, uncertainty cues more
      than twice the confidence cues tentative, the rest moderate. Both
      rates share the denominator, so only the counts matter; with no
      message every rate is NaN or infinite and the label is moderate. */
  function AnalyzeConfidence(uncertaintyCount: nat, confidenceCount: nat, totalMsgs: nat): (r: Confidence)
    ensures totalMsgs == 0 ==> r.Moderate?
    ensures totalMsgs >= 1 ==> (r.Assertive? <==> confidenceCount > 2 * uncertaintyCount)
    ensures totalMsgs >= 1 ==> (r.Confident? <==> uncertaintyCount < confidenceCount <= 2 * uncertaintyCount)
    ensures totalMsgs >= 1 ==> (r.Tentative? <==> uncertaintyCount > 2 * confidenceCount)
    ensures totalMsgs >= 1 ==> (r.Moderate? <==> confidenceCount <= uncertaintyCount <= 2 * confidenceCount)
    ensures r.Assertive? || r.Confident? || r.Tentative? || r.Moderate?
  {
    var uncertaintyRate := Quotient(uncertaintyCount as real, totalMsgs as real);
    var confidenceRate := Quotient(confidenceCount as real, totalMsgs as real);
    RatePairComparisons(confidenceCount, uncertaintyCount, totalMsgs);
    RatePairComparisons(uncertaintyCount, confidenceCount, totalMsgs);
    if GreaterNum(confidenceRate, Times(uncertaintyRate, 2.0)) then Confidence.Assertive
    else if GreaterNum(confidenceRate, uncertaintyRate) then Confidence.Confident
    else if GreaterNum(uncertaintyRate, Times(confidenceRate, 2.0)) then Confidence.Tentative
    else Confidence.Moderate
  }

  /** The comparisons of two rates over the same total, in JavaScript: over
      a positive total they are the comparisons of the counts; over zero
      messages each rate is NaN or +Infinity and no comparison holds. */
  lemma RatePairComparisons(a: nat, b: nat, total: nat)
    ensures total >= 1 ==>
      (GreaterNum(Quotient(a as real, total as real), Times(Quotient(b as real, total as real), 2.0)) <==> a > 2 * b)
    ensures total >= 1 ==>
      (GreaterNum(Quotient(a as real, total as real), Quotient(b as real, total as real)) <==> a > b)
    ensures total == 0 ==> !GreaterNum(Quotient(a as real, total as real), Times(Quotient(b as real, total as real), 2.0))
    ensures total == 0 ==> !GreaterNum(Quotient(a as real, total as real), Quotient(b as real, total as real))
  {
    if total >= 1 {
      ScaledRates(a, b, total, 2.0);
      ScaledRates(a, b, total, 1.0);
    }
  }

  /** The confidence label does not depend on the number of messages, as
      long as there is at least one. */
  lemma ConfidenceByCounts(uncertaintyCount: nat, confidenceCount: nat, n1: nat, n2: nat)
    requires n1 >= 1 && n2 >= 1
    ensures AnalyzeConfidence(uncertaintyCount, confidenceCount, n1) == AnalyzeConfidence(uncertaintyCount, confidenceCount, n2)
  {
  }
}
