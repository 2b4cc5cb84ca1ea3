/** `calculateDetailedMetrics`: the flat record of rates stored in a
    profile. Most rates are a count over the number of messages; the
    complex-sentence and passive-voice rates are over the number of
    sentences. The lemmas below show that each classifier's label can be
    read off the stored metrics with the classifier's own thresholds. */
module DetailedMetrics {
  import opened JsNumber
  import opened Text
  import opened Patterns
  import opened Utils
  import opened ToneProfileTypes
  import opened CommunicationStyle
  import opened PersonalityTraits
  import opened CommunicationPatterns
  import opened LinguisticSophistication
  import opened BehavioralPatterns

  /** A count over a number of messages or sentences, as JavaScript divides
      it: over a positive number the rate times that number gives the count
      back; over zero it is NaN or +Infinity. */
  function PerUnit(count: nat, units: nat): (r: Num)
    ensures units >= 1 ==> r.Finite? && r.value >= 0.0 && r.value * units as real == count as real
    ensures units == 0 ==> (r.NaN? <==> count == 0) && (r.PosInf? <==> count > 0)
  {
    Quotient(count as real, units as real)
  }

  predicate FiniteNonNegative(x: Num) {
    x.Finite? && x.value >= 0.0
  }

  /** Each of the 20 rates `calculateDetailedMetrics` divides by the message
      count is a finite, non-negative number. */
  predicate MessageRatesFinite(m: Metrics) {
    && FiniteNonNegative(m.contractionRate)
    && FiniteNonNegative(m.slangRate)
    && FiniteNonNegative(m.emojiRate)
    && FiniteNonNegative(m.politeMarkerRate)
    && FiniteNonNegative(m.imperativeRate)
    && FiniteNonNegative(m.exclamationRate)
    && FiniteNonNegative(m.capsRate)
    && FiniteNonNegative(m.questionRate)
    && FiniteNonNegative(m.interjectionRate)
    && FiniteNonNegative(m.repetitionRate)
    && FiniteNonNegative(m.firstPersonRate)
    && FiniteNonNegative(m.secondPersonRate)
    && FiniteNonNegative(m.thirdPersonRate)
    && FiniteNonNegative(m.uncertaintyMarkers)
    && FiniteNonNegative(m.confidenceMarkers)
    && FiniteNonNegative(m.humorIndicators)
    && FiniteNonNegative(m.technicalTermRate)
    && FiniteNonNegative(m.empathyMarkers)
    && FiniteNonNegative(m.timeMarkers)
    && FiniteNonNegative(m.spatialMarkers)
  }

  predicate Undefined(x: Num) {
    x.NaN? || x.PosInf?
  }

  /** Each of those rates is NaN or +Infinity. */
  predicate MessageRatesUndefined(m: Metrics) {
    && Undefined(m.contractionRate)
    && Undefined(m.slangRate)
    && Undefined(m.emojiRate)
    && Undefined(m.politeMarkerRate)
    && Undefined(m.imperativeRate)
    && Undefined(m.exclamationRate)
    && Undefined(m.capsRate)
    && Undefined(m.questionRate)
    && Undefined(m.interjectionRate)
    && Undefined(m.repetitionRate)
    && Undefined(m.firstPersonRate)
    && Undefined(m.secondPersonRate)
    && Undefined(m.thirdPersonRate)
    && Undefined(m.uncertaintyMarkers)
    && Undefined(m.confidenceMarkers)
    && Undefined(m.humorIndicators)
    && Undefined(m.technicalTermRate)
    && Undefined(m.empathyMarkers)
    && Undefined(m.timeMarkers)
    && Undefined(m.spatialMarkers)
  }

  /** `calculateDetailedMetrics(texts, messages, totalMsgs)`. The source also
      computes the whitespace word count of the text, which it never uses. */
  function CalculateDetailedMetrics(texts: string, messages: seq<string>, totalMsgs: nat, det: Detectors): (m: Metrics)
    ensures totalMsgs >= 1 ==> MessageRatesFinite(m)
    ensures totalMsgs == 0 ==> MessageRatesUndefined(m)
    ensures m.avgSentenceLength == m.avgTokens
    ensures FiniteNonNegative(m.avgTokens) && FiniteNonNegative(m.tokenVariance)
    ensures m.sentimentScore == Finite(SentimentScore(messages, POSITIVE_WORDS, NEGATIVE_WORDS) as real)
    ensures m.vocabularyDiversity.NaN? || (m.vocabularyDiversity.Finite? && 0.0 < m.vocabularyDiversity.value <= 1.0)
  {
    var stats := AnalyzeSentences(texts);
    var sentences := stats.sentences;
    Metrics(
      contractionRate := PerUnit(CountMatches(texts, det.contractions), totalMsgs),
      slangRate := PerUnit(CountMatches(texts, det.slang), totalMsgs),
      emojiRate := PerUnit(CountMatches(texts, det.emoji), totalMsgs),
      politeMarkerRate := PerUnit(CountMatches(texts, det.polite), totalMsgs),
      imperativeRate := PerUnit(CountMatches(texts, det.imperative), totalMsgs),
      sentimentScore := Finite(SentimentScore(messages, POSITIVE_WORDS, NEGATIVE_WORDS) as real),
      avgTokens := Finite(stats.avgTokens),
      tokenVariance := Finite(stats.tokenVariance),
      exclamationRate := PerUnit(ExclamationCount(texts), totalMsgs),
      capsRate := PerUnit(CountMatches(texts, det.capsWords), totalMsgs),
      questionRate := PerUnit(QuestionCount(texts), totalMsgs),
      interjectionRate := PerUnit(CountMatches(texts, det.interjections), totalMsgs),
      repetitionRate := PerUnit(CountMatches(texts, det.repetitions), totalMsgs),
      vocabularyDiversity := VocabularyDiversity(texts),
      avgSentenceLength := Finite(stats.avgTokens),
      complexSentenceRate := PerUnit(CountMatches(texts, det.complexSentences), |sentences|),
      passiveVoiceRate := PerUnit(CountMatches(texts, det.passiveVoice), |sentences|),
      firstPersonRate := PerUnit(CountMatches(texts, det.firstPerson), totalMsgs),
      secondPersonRate := PerUnit(CountMatches(texts, det.secondPerson), totalMsgs),
      thirdPersonRate := PerUnit(CountMatches(texts, det.thirdPerson), totalMsgs),
      uncertaintyMarkers := PerUnit(CountMatches(texts, det.uncertainty), totalMsgs),
      confidenceMarkers := PerUnit(CountMatches(texts, det.confidence), totalMsgs),
      humorIndicators := PerUnit(CountMatches(texts, det.humor), totalMsgs),
      technicalTermRate := PerUnit(CountMatches(texts, det.technical), totalMsgs),
      empathyMarkers := PerUnit(CountMatches(texts, det.empathy), totalMsgs),
      timeMarkers := PerUnit(CountMatches(texts, det.time), totalMsgs),
      spatialMarkers := PerUnit(CountMatches(texts, det.spatial), totalMsgs))
  }

  // ----- the classifiers read off the stored metrics -----

  /** Formality, from the stored slang and contraction rates. */
  lemma FormalityFromMetrics(texts: string, messages: seq<string>, totalMsgs: nat, det: Detectors)
    ensures var m := CalculateDetailedMetrics(texts, messages, totalMsgs, det);
      var f := AnalyzeFormality(CountMatches(texts, det.contractions), CountMatches(texts, det.slang), totalMsgs);
      && (f.SlangHeavy? <==> Greater(m.slangRate, 0.2))
      && (f.Casual? <==> !Greater(m.slangRate, 0.2) && (Greater(m.slangRate, 0.1) || Greater(m.contractionRate, 0.2)))
      && (f.SemiFormal? <==> (!Greater(m.slangRate, 0.1) && !Greater(m.contractionRate, 0.2)
        && Greater(m.contractionRate, 0.05)))
      && (f.Formal? <==> !Greater(m.slangRate, 0.1) && !Greater(m.contractionRate, 0.05))
  {
    var slang, contractions := CountMatches(texts, det.slang), CountMatches(texts, det.contractions);
    RateComparisons(slang, totalMsgs, 1, 5);
    RateComparisons(slang, totalMsgs, 1, 10);
    RateComparisons(contractions, totalMsgs, 1, 5);
    RateComparisons(contractions, totalMsgs, 1, 20);
  }

  /** Politeness, from the stored polite-marker and imperative rates. */
  lemma PolitenessFromMetrics(texts: string, messages: seq<string>, totalMsgs: nat, det: Detectors)
    ensures var m := CalculateDetailedMetrics(texts, messages, totalMsgs, det);
      var p := AnalyzePoliteness(CountMatches(texts, det.polite), CountMatches(texts, det.imperative), totalMsgs);
      && (p.Polite? <==> Greater(m.politeMarkerRate, 0.1))
      && (p.Blunt? <==> !Greater(m.politeMarkerRate, 0.1) && Greater(m.imperativeRate, 0.3))
      && (p.Neutral? <==> !Greater(m.politeMarkerRate, 0.1) && !Greater(m.imperativeRate, 0.1))
  {
    var polite, imperative := CountMatches(texts, det.polite), CountMatches(texts, det.imperative);
    RateComparisons(polite, totalMsgs, 1, 10);
    RateComparisons(imperative, totalMsgs, 3, 10);
    RateComparisons(imperative, totalMsgs, 1, 10);
  }

  /** Energy, from the stored exclamation and capital-word rates: they are
      made of the same counts `analyzeEnergy` makes. */
  lemma EnergyFromMetrics(texts: string, messages: seq<string>, totalMsgs: nat, det: Detectors)
    ensures var m := CalculateDetailedMetrics(texts, messages, totalMsgs, det);
      var e := AnalyzeEnergy(ExclamationCount(texts), CountMatches(texts, det.capsWords), totalMsgs);
      && (e.HighEnergy? <==> Greater(m.exclamationRate, 1.0) || Greater(m.capsRate, 0.1))
      && (e.Flat? <==> (!(Greater(m.exclamationRate, 1.0) || Greater(m.capsRate, 0.1))
        && Less(m.exclamationRate, 0.1) && Less(m.capsRate, 0.02)))
  {
    var exclamations, caps := ExclamationCount(texts), CountMatches(texts, det.capsWords);
    RateComparisons(exclamations, totalMsgs, 1, 1);
    RateComparisons(caps, totalMsgs, 1, 10);
    RateComparisons(exclamations, totalMsgs, 1, 10);
    RateComparisons(caps, totalMsgs, 1, 50);
  }

  /** Technicality, empathy and question style, from the stored rates. */
  lemma TraitsFromMetrics(texts: string, messages: seq<string>, totalMsgs: nat, det: Detectors)
    ensures var m := CalculateDetailedMetrics(texts, messages, totalMsgs, det);
      var t := AnalyzeTechnicality(CountMatches(texts, det.technical), totalMsgs);
      var e := AnalyzeEmpathy(CountMatches(texts, det.empathy), totalMsgs);
      && (t.Expert? <==> Greater(m.technicalTermRate, 0.1))
      && (t.NonTechnical? <==> !Greater(m.technicalTermRate, 0.01))
      && (e.VeryHigh? <==> Greater(m.empathyMarkers, 0.15))
      && (e.Low? <==> Less(m.empathyMarkers, 0.05))
  {
    var technical, empathy := CountMatches(texts, det.technical), CountMatches(texts, det.empathy);
    var m := CalculateDetailedMetrics(texts, messages, totalMsgs, det);
    assert m.technicalTermRate == PerUnit(technical, totalMsgs);
    assert m.empathyMarkers == PerUnit(empathy, totalMsgs);
    TraitsFromRates(technical, empathy, totalMsgs);
  }

  /** Technicality compares its rate with 0.1 and 0.01, empathy with 0.15
      and 0.05. */
  lemma TraitsFromRates(technical: nat, empathy: nat, totalMsgs: nat)
    ensures var t, e := AnalyzeTechnicality(technical, totalMsgs), AnalyzeEmpathy(empathy, totalMsgs);
      && (t.Expert? <==> Greater(PerUnit(technical, totalMsgs), 0.1))
      && (t.NonTechnical? <==> !Greater(PerUnit(technical, totalMsgs), 0.01))
      && (e.VeryHigh? <==> Greater(PerUnit(empathy, totalMsgs), 0.15))
      && (e.Low? <==> Less(PerUnit(empathy, totalMsgs), 0.05))
  {
    RateComparisons(technical, totalMsgs, 1, 10);
    RateComparisons(technical, totalMsgs, 1, 100);
    RateComparisons(empathy, totalMsgs, 3, 20);
    RateComparisons(empathy, totalMsgs, 1, 20);
  }

  /** Question style and discourse markers, from the stored question and
      interjection rates. */
  lemma PatternsFromMetrics(texts: string, messages: seq<string>, totalMsgs: nat, det: Detectors)
    ensures var m := CalculateDetailedMetrics(texts, messages, totalMsgs, det);
      var q := AnalyzeQuestionStyle(QuestionCount(texts), RhetoricalCue(texts), IndirectCue(texts), totalMsgs);
      var d := AnalyzeDiscourseMarkers(CountMatches(texts, det.interjections), totalMsgs);
      && (q.Clarifying? <==> Greater(m.questionRate, 0.3))
      && (d.Excessive? <==> Greater(m.interjectionRate, 0.2))
      && (d.Minimal? <==> Less(m.interjectionRate, 0.05))
  {
    var questions, interjections := QuestionCount(texts), CountMatches(texts, det.interjections);
    var m := CalculateDetailedMetrics(texts, messages, totalMsgs, det);
    assert m.questionRate == PerUnit(questions, totalMsgs);
    assert m.interjectionRate == PerUnit(interjections, totalMsgs);
    QuestionStyleFromRate(questions, RhetoricalCue(texts), IndirectCue(texts), totalMsgs);
    DiscourseMarkersFromRate(interjections, totalMsgs);
  }

  /** Question style compares the question rate with 0.3. */
  lemma QuestionStyleFromRate(questions: nat, rhetorical: bool, indirect: bool, totalMsgs: nat)
    ensures AnalyzeQuestionStyle(questions, rhetorical, indirect, totalMsgs).Clarifying?
      <==> Greater(PerUnit(questions, totalMsgs), 0.3)
  {
    RateComparisons(questions, totalMsgs, 3, 10);
  }

  /** Discourse markers compare the interjection rate with 0.2 and 0.05. */
  lemma DiscourseMarkersFromRate(interjections: nat, totalMsgs: nat)
    ensures var d := AnalyzeDiscourseMarkers(interjections, totalMsgs);
      && (d.Excessive? <==> Greater(PerUnit(interjections, totalMsgs), 0.2))
      && (d.Minimal? <==> Less(PerUnit(interjections, totalMsgs), 0.05))
  {
    RateComparisons(interjections, totalMsgs, 1, 5);
    RateComparisons(interjections, totalMsgs, 1, 20);
  }


  /** Conciseness and vocabulary level, from the stored mean sentence length
      and vocabulary diversity. */
  lemma LinguisticsFromMetrics(texts: string, messages: seq<string>, totalMsgs: nat, det: Detectors)
    ensures var m := CalculateDetailedMetrics(texts, messages, totalMsgs, det);
      var c, v := AnalyzeConciseness(texts), AnalyzeVocabularyLevel(texts);
      && (c.Concise? <==> m.avgTokens.value < 10.0)
      && (c.Verbose? <==> m.avgTokens.value > 20.0)
      && (v.Sophisticated? <==> Greater(m.vocabularyDiversity, 0.7))
      && (v.Basic? <==> Less(m.vocabularyDiversity, 0.4))
  {
    var ws := Words(texts);
    RateComparisons(|Distinct(ws)|, |ws|, 7, 10);
    RateComparisons(|Distinct(ws)|, |ws|, 2, 5);
  }

  /** Sentence complexity, from the stored complex-sentence rate: both divide
      by the number of sentences of `analyzeSentences`. */
  lemma SentenceComplexityFromMetrics(texts: string, messages: seq<string>, totalMsgs: nat, det: Detectors)
    ensures var m := CalculateDetailedMetrics(texts, messages, totalMsgs, det);
      var s := AnalyzeSentenceComplexity(AnalyzeSentences(texts), CountMatches(texts, det.complexSentences));
      && (s.Complex? <==> Greater(m.complexSentenceRate, 0.3))
      && (s.Simple? <==> Less(m.complexSentenceRate, 0.1))
  {
    var stats, count := AnalyzeSentences(texts), CountMatches(texts, det.complexSentences);
    assert CalculateDetailedMetrics(texts, messages, totalMsgs, det).complexSentenceRate == PerUnit(count, |stats.sentences|);
    ComplexityFromRate(stats, count);
  }

  /** The complexity label compares the complex-sentence rate with 0.3 and
      0.1. */
  lemma ComplexityFromRate(stats: SentenceStats, count: nat)
    ensures var s := AnalyzeSentenceComplexity(stats, count);
      && (s.Complex? <==> Greater(PerUnit(count, |stats.sentences|), 0.3))
      && (s.Simple? <==> Less(PerUnit(count, |stats.sentences|), 0.1))
  {
    RateComparisons(count, |stats.sentences|, 3, 10);
    RateComparisons(count, |stats.sentences|, 1, 10);
  }

  /** The stored sentiment score is the word-only score, to which the
      emotion label adds the positive and subtracts the negative emoji;
      without emoji, or with as many of each, the emotion label follows the
      stored score. */
  lemma EmotionFromMetrics(texts: string, messages: seq<string>, totalMsgs: nat, det: Detectors)
    ensures var m := CalculateDetailedMetrics(texts, messages, totalMsgs, det);
      var w := SentimentScore(messages, POSITIVE_WORDS, NEGATIVE_WORDS);
      var pe, ne := CountMatches(texts, det.positiveEmoji), CountMatches(texts, det.negativeEmoji);
      && EmotionScore(w, pe, ne) as real == m.sentimentScore.value + pe as real - ne as real
      && (pe == ne ==> (AnalyzeEmotion(w, pe, ne, false, totalMsgs).Neutral? <==> m.sentimentScore == Finite(0.0)))
      && (pe == ne ==> (AnalyzeEmotion(w, pe, ne, false, totalMsgs).Enthusiastic?
        <==> m.sentimentScore.value * 2.0 > totalMsgs as real))
  {
    var w := SentimentScore(messages, POSITIVE_WORDS, NEGATIVE_WORDS);
    assert CalculateDetailedMetrics(texts, messages, totalMsgs, det).sentimentScore == Finite(w as real);
    EmotionFromScore(w, CountMatches(texts, det.positiveEmoji), CountMatches(texts, det.negativeEmoji), totalMsgs);
  }

  /** The emotion label adds the emoji balance to the word score; with as
      many positive as negative emoji it follows the word score alone. */
  lemma EmotionFromScore(w: int, pe: nat, ne: nat, totalMsgs: nat)
    ensures EmotionScore(w, pe, ne) as real == w as real + pe as real - ne as real
    ensures pe == ne ==> (AnalyzeEmotion(w, pe, ne, false, totalMsgs).Neutral? <==> w == 0)
    ensures pe == ne ==> (AnalyzeEmotion(w, pe, ne, false, totalMsgs).Enthusiastic?
      <==> w as real * 2.0 > totalMsgs as real)
  {
  }

  /** The behavioral labels use the stored, word-only score as it is. */
  lemma BehaviorFromMetrics(texts: string, messages: seq<string>, totalMsgs: nat, det: Detectors)
    ensures var m := CalculateDetailedMetrics(texts, messages, totalMsgs, det);
      var w := SentimentScore(messages, POSITIVE_WORDS, NEGATIVE_WORDS);
      var polite, imperative := CountMatches(texts, det.polite), CountMatches(texts, det.imperative);
      && (AnalyzeFeedbackStyle(w, polite, imperative, totalMsgs).Direct? <==> Greater(m.imperativeRate, 0.3))
      && (AnalyzeConflictStyle(w, polite, imperative, totalMsgs).Competitive?
        <==> m.sentimentScore.value * 10.0 < -(totalMsgs as real) * 3.0 && Greater(m.imperativeRate, 0.2))
  {
    var w := SentimentScore(messages, POSITIVE_WORDS, NEGATIVE_WORDS);
    var polite, imperative := CountMatches(texts, det.polite), CountMatches(texts, det.imperative);
    var m := CalculateDetailedMetrics(texts, messages, totalMsgs, det);
    assert m.sentimentScore.value == w as real;
    assert m.imperativeRate == PerUnit(imperative, totalMsgs);
    BehaviorFromRates(w, polite, imperative, totalMsgs);
  }

  /** Feedback and conflict style compare the imperative rate with 0.3 and
      0.2, and the conflict style the word score with -0.3 per message. */
  lemma BehaviorFromRates(w: int, polite: nat, imperative: nat, totalMsgs: nat)
    ensures AnalyzeFeedbackStyle(w, polite, imperative, totalMsgs).Direct? <==> Greater(PerUnit(imperative, totalMsgs), 0.3)
    ensures AnalyzeConflictStyle(w, polite, imperative, totalMsgs).Competitive?
      <==> w as real * 10.0 < -(totalMsgs as real) * 3.0 && Greater(PerUnit(imperative, totalMsgs), 0.2)
  {
    assert (10 * w < -3 * totalMsgs) == (w as real * 10.0 < -(totalMsgs as real) * 3.0);
    RateComparisons(imperative, totalMsgs, 3, 10);
    RateComparisons(imperative, totalMsgs, 1, 5);
    assert AnalyzeFeedbackStyle(w, polite, imperative, totalMsgs).Direct? <==> RateAbove(imperative, totalMsgs, 3, 10);
    assert AnalyzeConflictStyle(w, polite, imperative, totalMsgs).Competitive?
      <==> 10 * w < -3 * totalMsgs && RateAbove(imperative, totalMsgs, 1, 5);
  }

}
