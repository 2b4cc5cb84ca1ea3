/** The behavioral classifiers: conflict style and feedback style. Both
    use the lexicon sentiment score of the messages, without the emoji
    adjustment that the emotion classifier applies. */
module BehavioralPatterns {
  import opened JsNumber
  import opened ToneProfileTypes

  /** `analyzeConflictStyle`: a score below -0.3 per message together with
      imperatives above 0.2 per message is competitive; otherwise a score
      below -0.1 per message is avoidant, whatever the polite markers; then
      polite markers above 0.15 per message are accommodating, and the rest
      collaborative. `compromising` is never produced. */
  function AnalyzeConflictStyle(sentimentScore: int, politeCount: nat, imperativeCount: nat, totalMsgs: nat): (r: ConflictStyle)
    ensures r.Competitive? <==> 10 * sentimentScore < -3 * totalMsgs && RateAbove(imperativeCount, totalMsgs, 1, 5)
    ensures r.Avoidant? <==> (!(10 * sentimentScore < -3 * totalMsgs && RateAbove(imperativeCount, totalMsgs, 1, 5))
      && 10 * sentimentScore < -(totalMsgs as int))
    ensures r.Accommodating? <==> 10 * sentimentScore >= -(totalMsgs as int) && RateAbove(politeCount, totalMsgs, 3, 20)
    ensures r.Collaborative? <==> 10 * sentimentScore >= -(totalMsgs as int) && !RateAbove(politeCount, totalMsgs, 3, 20)
    ensures !r.Compromising?
  {
    var politeMarkerRate := Quotient(politeCount as real, totalMsgs as real);
    var imperativeRate := Quotient(imperativeCount as real, totalMsgs as real);
    RateComparisons(imperativeCount, totalMsgs, 1, 5);
    RateComparisons(politeCount, totalMsgs, 3, 20);
    if sentimentScore as real < -(totalMsgs as real) * 0.3 && Greater(imperativeRate, 0.2) then ConflictStyle.Competitive
    else if sentimentScore as real < -(totalMsgs as real) * 0.1 then ConflictStyle.Avoidant
    else if Greater(politeMarkerRate, 0.15) then ConflictStyle.Accommodating
    else ConflictStyle.Collaborative
  }

  /** `analyzeFeedbackStyle`: imperatives above 0.3 per message are direct,
      whatever the politeness or sentiment; then polite markers above 0.2
      per message are gentle; then a score below -0.2 per message is harsh,
      and the rest constructive. `sandwich` and `indirect` are never
      produced. */
  function AnalyzeFeedbackStyle(sentimentScore: int, politeCount: nat, imperativeCount: nat, totalMsgs: nat): (r: FeedbackStyle)
    ensures r.Direct? <==> RateAbove(imperativeCount, totalMsgs, 3, 10)
    ensures r.Gentle? <==> !RateAbove(imperativeCount, totalMsgs, 3, 10) && RateAbove(politeCount, totalMsgs, 1, 5)
    ensures r.Harsh? <==> (!RateAbove(imperativeCount, totalMsgs, 3, 10) && !RateAbove(politeCount, totalMsgs, 1, 5)
      && 5 * sentimentScore < -(totalMsgs as int))
    ensures r.Constructive? <==> (!RateAbove(imperativeCount, totalMsgs, 3, 10) && !RateAbove(politeCount, totalMsgs, 1, 5)
      && 5 * sentimentScore >= -(totalMsgs as int))
    ensures !r.Sandwich? && !r.Indirect?
  {
    var politeMarkerRate := Quotient(politeCount as real, totalMsgs as real);
    var imperativeRate := Quotient(imperativeCount as real, totalMsgs as real);
    RateComparisons(imperativeCount, totalMsgs, 3, 10);
    RateComparisons(politeCount, totalMsgs, 1, 5);
    if Greater(imperativeRate, 0.3) then FeedbackStyle.Direct
    else if Greater(politeMarkerRate, 0.2) then FeedbackStyle.Gentle
    else if sentimentScore as real < -(totalMsgs as real) * 0.2 then FeedbackStyle.Harsh
    else FeedbackStyle.Constructive
  }

  /** A competitive conflict style needs both a strongly negative score and
      many imperatives: neither alone is enough. */
  lemma CompetitiveNeedsBoth(sentimentScore: int, politeCount: nat, totalMsgs: nat)
    requires totalMsgs >= 1
    ensures !AnalyzeConflictStyle(sentimentScore, politeCount, 0, totalMsgs).Competitive?
    ensures !AnalyzeConflictStyle(0, politeCount, totalMsgs, totalMsgs).Competitive?
  {
  }
}
