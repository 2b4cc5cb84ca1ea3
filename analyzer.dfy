/** `generateToneProfile`: runs every classifier, the personalization miners
    and the metrics on the same corpus and assembles the profile. The corpus
    text is the messages joined with newlines and N is the number of
    messages. Each classifier of the source counts its own cues in the text;
    here the assembler counts them and hands the counts to the classifier. */
module Analyzer {
  import opened JsNumber
  import opened Text
  import opened Patterns
  import opened Utils
  import opened Quirks
  import opened ToneProfileTypes
  import opened CommunicationStyle
  import opened PersonalityTraits
  import opened CommunicationPatterns
  import opened LinguisticSophistication
  import opened BehavioralPatterns
  import opened Personalization
  import opened DetailedMetrics

  /** `generateToneProfile(messages)`. `interruptionStyle` is always
      `moderate`: the messages carry no timing. A sarcasm cue makes both the
      emotion and the humor sarcastic; without any message every count rate
      is NaN or +Infinity, the confidence is moderate and the response
      pattern immediate. */
  function GenerateToneProfile(messages: seq<string>, det: Detectors): (p: ToneProfile)
    ensures p.interruptionStyle == "moderate"
    ensures p.emotion == "sarcastic" <==> SarcasmCue(Join(messages, "\n"))
    ensures p.emotion == "sarcastic" <==> p.humor == "sarcastic"
    ensures |p.commonWords| <= 10 && |p.signaturePhrases| <= 5
    ensures IsSubsequence(p.avoidedWords, COMMON_ENGLISH_WORDS)
    ensures IsSubsequence(p.communicationQuirks, QUIRK_LABELS)
    ensures p.metrics.avgSentenceLength == p.metrics.avgTokens
    ensures messages == [] ==> MessageRatesUndefined(p.metrics)
    ensures messages != [] ==> MessageRatesFinite(p.metrics)
  {
    var texts := Join(messages, "\n");
    var totalMsgs: nat := |messages|;
    var totalWords: nat := |Split(texts, IsSpace)|;
    var sentimentScore := SentimentScore(messages, POSITIVE_WORDS, NEGATIVE_WORDS);
    var politeCount := CountMatches(texts, det.polite);
    var imperativeCount := CountMatches(texts, det.imperative);
    var personalization := AnalyzePersonalizationElements(texts, totalWords, det);
    var emotion := AnalyzeEmotion(sentimentScore, CountMatches(texts, det.positiveEmoji), CountMatches(texts, det.negativeEmoji),
      SarcasmCue(texts), totalMsgs);
    var humor := AnalyzeHumor(CountMatches(texts, det.humor), SarcasmCue(texts), totalMsgs);
    EmotionNameInjective(emotion, Emotion.Sarcastic);
    HumorNameInjective(humor, Humor.Sarcastic);
    ToneProfile(
      formality := AnalyzeFormality(CountMatches(texts, det.contractions), CountMatches(texts, det.slang), totalMsgs).Name(),
      politeness := AnalyzePoliteness(politeCount, imperativeCount, totalMsgs).Name(),
      emotion := emotion.Name(),
      conciseness := AnalyzeConciseness(texts).Name(),
      energy := AnalyzeEnergy(ExclamationCount(texts), CountMatches(texts, det.capsWords), totalMsgs).Name(),
      humor := humor.Name(),
      technicality := AnalyzeTechnicality(CountMatches(texts, det.technical), totalMsgs).Name(),
      empathy := AnalyzeEmpathy(CountMatches(texts, det.empathy), totalMsgs).Name(),
      confidence := AnalyzeConfidence(CountMatches(texts, det.uncertainty), CountMatches(texts, det.confidence), totalMsgs).Name(),
      questionStyle := AnalyzeQuestionStyle(QuestionCount(texts), RhetoricalCue(texts), IndirectCue(texts), totalMsgs).Name(),
      greetingStyle := AnalyzeGreetingStyle(texts).Name(),
      closingStyle := AnalyzeClosingStyle(texts).Name(),
      interruptionStyle := InterruptionStyle.Moderate.Name(),
      responsePattern := AnalyzeResponsePattern(messages).Name(),
      vocabularyLevel := AnalyzeVocabularyLevel(texts).Name(),
      sentenceComplexity := AnalyzeSentenceComplexity(AnalyzeSentences(texts), CountMatches(texts, det.complexSentences)).Name(),
      discourseMarkers := AnalyzeDiscourseMarkers(CountMatches(texts, det.interjections), totalMsgs).Name(),
      signaturePhrases := personalization.signaturePhrases,
      commonWords := personalization.commonWords,
      avoidedWords := personalization.avoidedWords,
      communicationQuirks := personalization.communicationQuirks,
      conflictStyle := AnalyzeConflictStyle(sentimentScore, politeCount, imperativeCount, totalMsgs).Name(),
      feedbackStyle := AnalyzeFeedbackStyle(sentimentScore, politeCount, imperativeCount, totalMsgs).Name(),
      metrics := CalculateDetailedMetrics(texts, messages, totalMsgs, det))
  }

  /** Without any message every message rate is NaN or +Infinity: no
      confidence comparison holds and the message lengths have mean 0, so
      the confidence is moderate and the response pattern immediate. */
  lemma EmptyCorpusProfile(messages: seq<string>, det: Detectors)
    requires messages == []
    ensures var p := GenerateToneProfile(messages, det);
      && p.confidence == "moderate" && p.responsePattern == "immediate"
      && MessageRatesUndefined(p.metrics)
  {
    EmptyCorpusConfidence(messages, det);
    EmptyCorpusResponse(messages, det);
  }

  lemma EmptyCorpusConfidence(messages: seq<string>, det: Detectors)
    requires messages == []
    ensures GenerateToneProfile(messages, det).confidence == "moderate"
  {
    ConfidenceAndResponse(messages, det);
    var texts := Join(messages, "\n");
    var c := AnalyzeConfidence(CountMatches(texts, det.uncertainty), CountMatches(texts, det.confidence), |messages|);
    assert c.Moderate?;
  }

  lemma EmptyCorpusResponse(messages: seq<string>, det: Detectors)
    requires messages == []
    ensures GenerateToneProfile(messages, det).responsePattern == "immediate"
  {
    ConfidenceAndResponse(messages, det);
    NoMessagesImmediate(messages);
  }

  lemma NoMessagesImmediate(messages: seq<string>)
    requires messages == []
    ensures AnalyzeResponsePattern(messages).Name() == "immediate"
  {
    assert forall i :: 0 <= i < |messages| ==> messages[i] == "";
  }

  /** Where the profile's confidence and response pattern come from. */
  lemma {:induction false} ConfidenceAndResponse(messages: seq<string>, det: Detectors)
    ensures var texts, p := Join(messages, "\n"), GenerateToneProfile(messages, det);
      && p.confidence == AnalyzeConfidence(CountMatches(texts, det.uncertainty), CountMatches(texts, det.confidence), |messages|).Name()
      && p.responsePattern == AnalyzeResponsePattern(messages).Name()
  {
  }

  /** The core style labels of a profile agree with its own metrics: each is
      what the classifier's thresholds give on the stored rate. */
  lemma StyleAgreesWithMetrics(messages: seq<string>, det: Detectors)
    ensures var p := GenerateToneProfile(messages, det);
      && (p.formality == "slang-heavy" <==> Greater(p.metrics.slangRate, 0.2))
      && (p.formality == "formal" <==> !Greater(p.metrics.slangRate, 0.1) && !Greater(p.metrics.contractionRate, 0.05))
      && (p.politeness == "polite" <==> Greater(p.metrics.politeMarkerRate, 0.1))
      && (p.energy == "high-energy" <==> Greater(p.metrics.exclamationRate, 1.0) || Greater(p.metrics.capsRate, 0.1))
      && (p.conciseness == "concise" <==> p.metrics.avgTokens.value < 10.0)
  {
    var texts, n: nat := Join(messages, "\n"), |messages|;
    FormalityFromMetrics(texts, messages, n, det);
    PolitenessFromMetrics(texts, messages, n, det);
    EnergyFromMetrics(texts, messages, n, det);
    LinguisticsFromMetrics(texts, messages, n, det);
  }

  /** The trait and pattern labels of a profile agree with its own
      metrics. */
  lemma TraitsAgreeWithMetrics(messages: seq<string>, det: Detectors)
    ensures var p := GenerateToneProfile(messages, det);
      && (p.technicality == "non-technical" <==> !Greater(p.metrics.technicalTermRate, 0.01))
      && (p.questionStyle == "clarifying" <==> Greater(p.metrics.questionRate, 0.3))
      && (p.discourseMarkers == "excessive" <==> Greater(p.metrics.interjectionRate, 0.2))
  {
    var texts, n: nat := Join(messages, "\n"), |messages|;
    var p := GenerateToneProfile(messages, det);
    var t := AnalyzeTechnicality(CountMatches(texts, det.technical), n);
    var q := AnalyzeQuestionStyle(QuestionCount(texts), RhetoricalCue(texts), IndirectCue(texts), n);
    var d := AnalyzeDiscourseMarkers(CountMatches(texts, det.interjections), n);
    TechnicalityNameInjective(t, Technicality.NonTechnical);
    QuestionStyleNameInjective(q, QuestionStyle.Clarifying);
    DiscourseMarkersNameInjective(d, DiscourseMarkers.Excessive);
    TraitsFromMetrics(texts, messages, n, det);
    PatternsFromMetrics(texts, messages, n, det);
  }

  /** The vocabulary, sentence-complexity and feedback labels of a profile
      agree with its own metrics. */
  lemma LinguisticsAgreeWithMetrics(messages: seq<string>, det: Detectors)
    ensures var p := GenerateToneProfile(messages, det);
      && (p.vocabularyLevel == "sophisticated" <==> Greater(p.metrics.vocabularyDiversity, 0.7))
      && (p.sentenceComplexity == "complex" <==> Greater(p.metrics.complexSentenceRate, 0.3))
      && (p.feedbackStyle == "direct" <==> Greater(p.metrics.imperativeRate, 0.3))
  {
    VocabularyAgreesWithMetrics(messages, det);
    ComplexityAgreesWithMetrics(messages, det);
    FeedbackAgreesWithMetrics(messages, det);
  }

  lemma VocabularyAgreesWithMetrics(messages: seq<string>, det: Detectors)
    ensures var p := GenerateToneProfile(messages, det);
      p.vocabularyLevel == "sophisticated" <==> Greater(p.metrics.vocabularyDiversity, 0.7)
  {
    var texts, n: nat := Join(messages, "\n"), |messages|;
    VocabularyLevelNameInjective(AnalyzeVocabularyLevel(texts), VocabularyLevel.Sophisticated);
    LinguisticsFromMetrics(texts, messages, n, det);
  }

  lemma ComplexityAgreesWithMetrics(messages: seq<string>, det: Detectors)
    ensures var p := GenerateToneProfile(messages, det);
      p.sentenceComplexity == "complex" <==> Greater(p.metrics.complexSentenceRate, 0.3)
  {
    var texts, n: nat := Join(messages, "\n"), |messages|;
    var c := AnalyzeSentenceComplexity(AnalyzeSentences(texts), CountMatches(texts, det.complexSentences));
    SentenceComplexityNameInjective(c, SentenceComplexity.Complex);
    SentenceComplexityFromMetrics(texts, messages, n, det);
  }

  lemma FeedbackAgreesWithMetrics(messages: seq<string>, det: Detectors)
    ensures var p := GenerateToneProfile(messages, det);
      p.feedbackStyle == "direct" <==> Greater(p.metrics.imperativeRate, 0.3)
  {
    var texts, n: nat := Join(messages, "\n"), |messages|;
    var sentimentScore := SentimentScore(messages, POSITIVE_WORDS, NEGATIVE_WORDS);
    var f := AnalyzeFeedbackStyle(sentimentScore, CountMatches(texts, det.polite), CountMatches(texts, det.imperative), n);
    FeedbackStyleNameInjective(f, FeedbackStyle.Direct);
    BehaviorFromMetrics(texts, messages, n, det);
  }
}
