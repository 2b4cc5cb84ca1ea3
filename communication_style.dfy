/** The five core communication-style classifiers. Each counts a few cues,
    divides each count by the message count N and walks a chain of
    threshold tests in which the first test that holds decides the label.

    The classifiers take the counts the source obtains with `countMatches`
    and the cues it obtains with `RegExp.test` as arguments. Each body
    follows the source: a JavaScript division (`Quotient`, so that N = 0
    gives an infinity or NaN) compared with the source's decimal threshold.
    Each contract states the label bands as integer cross products
    (`RateAbove`, `RateBelow`), zero messages included. */
module CommunicationStyle {
  import opened JsNumber
  import opened ToneProfileTypes
  import opened Utils

  /** `analyzeFormality`: slang above 0.2 per message is slang-heavy; slang
      above 0.1 or contractions above 0.2 are casual; contractions above
      0.05 are semi-formal; anything else is formal. */
  function AnalyzeFormality(contractionCount: nat, slangCount: nat, totalMsgs: nat): (r: Formality)
    ensures r.SlangHeavy? <==> RateAbove(slangCount, totalMsgs, 1, 5)
    ensures r.Casual? <==> (!RateAbove(slangCount, totalMsgs, 1, 5)
      && (RateAbove(slangCount, totalMsgs, 1, 10) || RateAbove(contractionCount, totalMsgs, 1, 5)))
    ensures r.SemiFormal? <==> (!RateAbove(slangCount, totalMsgs, 1, 10)
      && !RateAbove(contractionCount, totalMsgs, 1, 5) && RateAbove(contractionCount, totalMsgs, 1, 20))
    ensures r.Formal? <==> !RateAbove(slangCount, totalMsgs, 1, 10) && !RateAbove(contractionCount, totalMsgs, 1, 20)
  {
    var contractionRate := Quotient(contractionCount as real, totalMsgs as real);
    var slangRate := Quotient(slangCount as real, totalMsgs as real);
    RateComparisons(slangCount, totalMsgs, 1, 5);
    RateComparisons(slangCount, totalMsgs, 1, 10);
    RateComparisons(contractionCount, totalMsgs, 1, 5);
    RateComparisons(contractionCount, totalMsgs, 1, 20);
    if Greater(slangRate, 0.2) then Formality.SlangHeavy
    else if Greater(slangRate, 0.1) || Greater(contractionRate, 0.2) then Formality.Casual
    else if Greater(contractionRate, 0.05) then Formality.SemiFormal
    else Formality.Formal
  }

  /** `analyzePoliteness`: polite markers above 0.1 per message win over any
      imperative rate; then imperatives above 0.3 are blunt and above 0.1
      direct; the default is neutral. */
  function AnalyzePoliteness(politeCount: nat, imperativeCount: nat, totalMsgs: nat): (r: Politeness)
    ensures r.Polite? <==> RateAbove(politeCount, totalMsgs, 1, 10)
    ensures r.Blunt? <==> !RateAbove(politeCount, totalMsgs, 1, 10) && RateAbove(imperativeCount, totalMsgs, 3, 10)
    ensures r.Direct? <==> (!RateAbove(politeCount, totalMsgs, 1, 10)
      && !RateAbove(imperativeCount, totalMsgs, 3, 10) && RateAbove(imperativeCount, totalMsgs, 1, 10))
    ensures r.Neutral? <==> !RateAbove(politeCount, totalMsgs, 1, 10) && !RateAbove(imperativeCount, totalMsgs, 1, 10)
  {
    var politeMarkerRate := Quotient(politeCount as real, totalMsgs as real);
    var imperativeRate := Quotient(imperativeCount as real, totalMsgs as real);
    RateComparisons(politeCount, totalMsgs, 1, 10);
    RateComparisons(imperativeCount, totalMsgs, 3, 10);
    RateComparisons(imperativeCount, totalMsgs, 1, 10);
    if Greater(politeMarkerRate, 0.1) then Politeness.Polite
    else if Greater(imperativeRate, 0.3) then Politeness.Blunt
    else if Greater(imperativeRate, 0.1) then Politeness.Direct
    else Politeness.Neutral
  }

  /** The score `analyzeEmotion` compares: the lexicon score plus the
      positive emoji minus the negative emoji. */
  function EmotionScore(wordScore: int, positiveEmoji: nat, negativeEmoji: nat): int {
    wordScore + positiveEmoji - negativeEmoji
  }

  /** `analyzeEmotion`: a sarcasm cue decides first; then the adjusted score
      above N/2 is enthusiastic, above 0 positive, below -N/2 frustrated,
      below 0 negative, and exactly 0 neutral. The label `mixed` is never
      produced. */
  function AnalyzeEmotion(wordScore: int, positiveEmoji: nat, negativeEmoji: nat, sarcasm: bool, totalMsgs: nat): (r: Emotion)
    ensures r.Sarcastic? <==> sarcasm
    ensures r.Enthusiastic? <==> !sarcasm && 2 * EmotionScore(wordScore, positiveEmoji, negativeEmoji) > totalMsgs
    ensures r.Positive? <==> (!sarcasm
      && 0 < EmotionScore(wordScore, positiveEmoji, negativeEmoji) && 2 * EmotionScore(wordScore, positiveEmoji, negativeEmoji) <= totalMsgs)
    ensures r.Frustrated? <==> !sarcasm && 2 * EmotionScore(wordScore, positiveEmoji, negativeEmoji) < -(totalMsgs as int)
    ensures r.Negative? <==> (!sarcasm
      && EmotionScore(wordScore, positiveEmoji, negativeEmoji) < 0 && 2 * EmotionScore(wordScore, positiveEmoji, negativeEmoji) >= -(totalMsgs as int))
    ensures r.Neutral? <==> !sarcasm && EmotionScore(wordScore, positiveEmoji, negativeEmoji) == 0
    ensures !r.Mixed?
  {
    var sentimentScore := (wordScore + positiveEmoji - negativeEmoji) as real;
    if sarcasm then Emotion.Sarcastic
    else if sentimentScore > totalMsgs as real * 0.5 then Emotion.Enthusiastic
    else if sentimentScore > 0.0 then Emotion.Positive
    else if sentimentScore < -(totalMsgs as real) * 0.5 then Emotion.Frustrated
    else if sentimentScore < 0.0 then Emotion.Negative
    else Emotion.Neutral
  }

  /** `analyzeConciseness`: the mean sentence length in tokens below 10 is
      concise, above 20 verbose, anything between balanced. A text without
      any sentence has mean 0 and is concise; two texts with the same mean
      get the same label (`ConcisenessByMean`). */
  function AnalyzeConciseness(texts: string): (r: Conciseness)
    ensures r.Concise? <==> AnalyzeSentences(texts).avgTokens < 10.0
    ensures r.Verbose? <==> AnalyzeSentences(texts).avgTokens > 20.0
    ensures r.Balanced? <==> 10.0 <= AnalyzeSentences(texts).avgTokens <= 20.0
    ensures !r.Detailed?
    ensures Sentences(texts) == [] ==> r.Concise?
  {
    var avgTokens := AnalyzeSentences(texts).avgTokens;
    if avgTokens < 10.0 then Conciseness.Concise
    else if avgTokens > 20.0 then Conciseness.Verbose
    else Conciseness.Balanced
  }

  /** `analyzeEnergy`: more than one exclamation mark per message or capital
      words above 0.1 per message are high energy; exclamations below 0.1
      and capital words below 0.02 per message are flat; anything else is
      normal. With no message at all both rates are NaN or infinite, so the
      label is never flat. */
  function AnalyzeEnergy(exclamationCount: nat, capsCount: nat, totalMsgs: nat): (r: Energy)
    ensures r.HighEnergy? <==> RateAbove(exclamationCount, totalMsgs, 1, 1) || RateAbove(capsCount, totalMsgs, 1, 10)
    ensures r.Flat? <==> RateBelow(exclamationCount, totalMsgs, 1, 10) && RateBelow(capsCount, totalMsgs, 1, 50)
    ensures r.Normal? <==> (!(RateAbove(exclamationCount, totalMsgs, 1, 1) || RateAbove(capsCount, totalMsgs, 1, 10))
      && !(RateBelow(exclamationCount, totalMsgs, 1, 10) && RateBelow(capsCount, totalMsgs, 1, 50)))
    ensures !r.Moderate? && !r.LowEnergy?
    ensures totalMsgs == 0 ==> !r.Flat?
  {
    var exclamationRate := Quotient(exclamationCount as real, totalMsgs as real);
    var capsRate := Quotient(capsCount as real, totalMsgs as real);
    RateComparisons(exclamationCount, totalMsgs, 1, 1);
    RateComparisons(capsCount, totalMsgs, 1, 10);
    RateComparisons(exclamationCount, totalMsgs, 1, 10);
    RateComparisons(capsCount, totalMsgs, 1, 50);
    if Greater(exclamationRate, 1.0) || Greater(capsRate, 0.1) then Energy.HighEnergy
    else if Less(exclamationRate, 0.1) && Less(capsRate, 0.02) then Energy.Flat
    else Energy.Normal
  }

  // ----- properties across inputs -----

  /** Slang above 0.2 per message decides formality whatever the
      contractions; below that the formality only gets more formal as the
      contractions decrease. */
  lemma FormalityBySlang(c1: nat, c2: nat, slangCount: nat, totalMsgs: nat)
    requires c1 <= c2
    ensures RateAbove(slangCount, totalMsgs, 1, 5) ==>
      AnalyzeFormality(c1, slangCount, totalMsgs) == AnalyzeFormality(c2, slangCount, totalMsgs) == Formality.SlangHeavy
    ensures AnalyzeFormality(c2, slangCount, totalMsgs) .Formal? ==> AnalyzeFormality(c1, slangCount, totalMsgs).Formal?
  {
  }

  /** The politeness default `neutral` is returned exactly when neither
      polite markers nor imperatives exceed 0.1 per message; polite markers
      overrule every imperative count. */
  lemma PolitenessNeutralBand(politeCount: nat, i1: nat, i2: nat, totalMsgs: nat)
    requires RateAbove(politeCount, totalMsgs, 1, 10)
    ensures AnalyzePoliteness(politeCount, i1, totalMsgs) == AnalyzePoliteness(politeCount, i2, totalMsgs) == Politeness.Polite
  {
  }

  /** Raising the adjusted score never lowers the emotion along the scale
      frustrated < negative < neutral < positive < enthusiastic. */
  function EmotionRank(e: Emotion): int {
    match e
    case Frustrated => 0
    case Negative => 1
    case Neutral => 2
    case Positive => 3
    case Enthusiastic => 4
    case _ => 5
  }

  lemma EmotionMonotone(w1: int, w2: int, positiveEmoji: nat, negativeEmoji: nat, totalMsgs: nat)
    requires w1 <= w2
    ensures EmotionRank(AnalyzeEmotion(w1, positiveEmoji, negativeEmoji, false, totalMsgs))
      <= EmotionRank(AnalyzeEmotion(w2, positiveEmoji, negativeEmoji, false, totalMsgs))
  {
  }

  /** Conciseness depends on the text only through the mean sentence length. */
  lemma ConcisenessByMean(a: string, b: string)
    requires AnalyzeSentences(a).avgTokens == AnalyzeSentences(b).avgTokens
    ensures AnalyzeConciseness(a) == AnalyzeConciseness(b)
  {
  }

  /** High energy takes priority over flat: many capital words make a text
      high-energy even without a single exclamation mark. */
  lemma HighEnergyOverFlat(capsCount: nat, totalMsgs: nat)
    requires totalMsgs >= 1 && 10 * capsCount > totalMsgs
    ensures AnalyzeEnergy(0, capsCount, totalMsgs) == Energy.HighEnergy
  {
  }
}
