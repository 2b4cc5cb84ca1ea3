/** The linguistic-sophistication classifiers: vocabulary level, sentence
    complexity and discourse markers. */
module LinguisticSophistication {
  import opened JsNumber
  import opened Text
  import opened ToneProfileTypes
  import opened Utils

  /** `analyzeVocabularyLevel`: a vocabulary diversity above 0.7 is
      sophisticated, above 0.6 advanced, below 0.4 basic, the rest
      intermediate. Stated on the counts: n words longer than two
      characters, u of them distinct. Without such a word the diversity is
      NaN and the level is intermediate; words that never repeat are
      sophisticated. */
  function AnalyzeVocabularyLevel(texts: string): (r: VocabularyLevel)
    ensures var n, u := |Words(texts)|, |Distinct(Words(texts))|;
      r.Sophisticated? <==> n >= 1 && 10 * u > 7 * n
    ensures var n, u := |Words(texts)|, |Distinct(Words(texts))|;
      r.Advanced? <==> n >= 1 && 6 * n < 10 * u <= 7 * n
    ensures var n, u := |Words(texts)|, |Distinct(Words(texts))|;
      r.Basic? <==> n >= 1 && 10 * u < 4 * n
    ensures var n, u := |Words(texts)|, |Distinct(Words(texts))|;
      r.Intermediate? <==> n == 0 || 4 * n <= 10 * u <= 6 * n
    ensures Words(texts) != [] && NoDuplicates(Words(texts)) ==> r.Sophisticated?
  {
    var ws := Words(texts);
    var vocabularyDiversity := VocabularyDiversity(texts);
    RateComparisons(|Distinct(ws)|, |ws|, 7, 10);
    RateComparisons(|Distinct(ws)|, |ws|, 3, 5);
    RateComparisons(|Distinct(ws)|, |ws|, 2, 5);
    if Greater(vocabularyDiversity, 0.7) then VocabularyLevel.Sophisticated
    else if Greater(vocabularyDiversity, 0.6) then VocabularyLevel.Advanced
    else if Less(vocabularyDiversity, 0.4) then VocabularyLevel.Basic
    else VocabularyLevel.Intermediate
  }

  /** `analyzeSentenceComplexity`, given the result of `analyzeSentences`
      on the text: complex-sentence cues above 0.3 per sentence are
      complex, below 0.1 simple; between the two the level is varied when
      the sentence lengths spread by more than half their mean, and compound
      otherwise. The source splits the text a second time for the sentence
      count, with the same split and filter as `analyzeSentences`, so the
      count is that of `stats.sentences` (`AnalyzeSentences` ensures
      `sentences == Sentences(text)`). With no sentence the rate is
      +Infinity or NaN: any cue makes the text complex. */
  function AnalyzeSentenceComplexity(stats: SentenceStats, complexSentenceCount: nat): (r: SentenceComplexity)
    ensures r.Complex? <==> RateAbove(complexSentenceCount, |stats.sentences|, 3, 10)
    ensures r.Simple? <==> RateBelow(complexSentenceCount, |stats.sentences|, 1, 10)
    ensures r.Varied? <==> (!RateAbove(complexSentenceCount, |stats.sentences|, 3, 10)
      && !RateBelow(complexSentenceCount, |stats.sentences|, 1, 10) && SpreadAboveHalfMean(stats))
    ensures r.Compound? <==> (!RateAbove(complexSentenceCount, |stats.sentences|, 3, 10)
      && !RateBelow(complexSentenceCount, |stats.sentences|, 1, 10) && !SpreadAboveHalfMean(stats))
    ensures stats.sentences == [] ==> (r.Complex? <==> complexSentenceCount > 0)
    ensures !r.Moderate?
  {
    var sentences := stats.sentences;
    var complexSentenceRate := Quotient(complexSentenceCount as real, |sentences| as real);
    RateComparisons(complexSentenceCount, |sentences|, 3, 10);
    RateComparisons(complexSentenceCount, |sentences|, 1, 10);
    if Greater(complexSentenceRate, 0.3) then SentenceComplexity.Complex
    else if Less(complexSentenceRate, 0.1) then SentenceComplexity.Simple
    else if SpreadAboveHalfMean(stats) then SentenceComplexity.Varied
    else SentenceComplexity.Compound
  }

  /** A text without any sentence is complex when some complex-sentence cue
      matches (the rate is +Infinity) and compound otherwise (the rate is
      NaN and the lengths have no spread). */
  lemma NoSentenceComplexity(texts: string, complexSentenceCount: nat)
    requires Sentences(texts) == []
    ensures AnalyzeSentenceComplexity(AnalyzeSentences(texts), complexSentenceCount)
      == if complexSentenceCount > 0 then SentenceComplexity.Complex else SentenceComplexity.Compound
  {
    var stats := AnalyzeSentences(texts);
    assert stats.sentences == [] && stats.tokenVariance == 0.0;
  }

  /** `analyzeDiscourseMarkers`: interjections above 0.2 per message are
      excessive, above 0.1 frequent, below 0.05 minimal, the rest
      moderate. */
  function AnalyzeDiscourseMarkers(interjectionCount: nat, totalMsgs: nat): (r: DiscourseMarkers)
    ensures r.Excessive? <==> RateAbove(interjectionCount, totalMsgs, 1, 5)
    ensures r.Frequent? <==> !RateAbove(interjectionCount, totalMsgs, 1, 5) && RateAbove(interjectionCount, totalMsgs, 1, 10)
    ensures r.Minimal? <==> RateBelow(interjectionCount, totalMsgs, 1, 20)
    ensures r.Moderate? <==> !RateAbove(interjectionCount, totalMsgs, 1, 10) && !RateBelow(interjectionCount, totalMsgs, 1, 20)
  {
    var interjectionRate := Quotient(interjectionCount as real, totalMsgs as real);
    RateComparisons(interjectionCount, totalMsgs, 1, 5);
    RateComparisons(interjectionCount, totalMsgs, 1, 10);
    RateComparisons(interjectionCount, totalMsgs, 1, 20);
    if Greater(interjectionRate, 0.2) then DiscourseMarkers.Excessive
    else if Greater(interjectionRate, 0.1) then DiscourseMarkers.Frequent
    else if Less(interjectionRate, 0.05) then DiscourseMarkers.Minimal
    else DiscourseMarkers.Moderate
  }
}
