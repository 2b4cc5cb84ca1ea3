/** `analyzePersonalizationElements`: the four lists of a profile that are
    about the person's own words, all mined from the same text. */
module Personalization {
  import opened Text
  import opened Patterns
  import opened Utils
  import opened Quirks
  import opened Frequency

  datatype PersonalizationElements = PersonalizationElements(
    signaturePhrases: seq<string>,
    commonWords: seq<string>,
    avoidedWords: seq<string>,
    communicationQuirks: seq<string>)

  /** `analyzePersonalizationElements(texts, totalWords)`: at most five
      signature phrases, at most ten common words, the avoided words among the
      twelve common English words in list order, and the quirks among the
      six quirk labels in test order; none of the lists repeats an entry. */
  function AnalyzePersonalizationElements(texts: string, totalWords: nat, det: Detectors): (r: PersonalizationElements)
    ensures |r.signaturePhrases| <= 5 && NoDuplicates(r.signaturePhrases)
    ensures |r.commonWords| <= 10 && NoDuplicates(r.commonWords)
    ensures forall i :: 0 <= i < |r.commonWords| ==> r.commonWords[i] in Words(texts)
    ensures IsSubsequence(r.avoidedWords, COMMON_ENGLISH_WORDS) && |r.avoidedWords| <= 12
    ensures forall i :: 0 <= i < |COMMON_ENGLISH_WORDS| && !Contains(ToLower(texts), COMMON_ENGLISH_WORDS[i]) ==>
      COMMON_ENGLISH_WORDS[i] in r.avoidedWords
    ensures IsSubsequence(r.communicationQuirks, QUIRK_LABELS) && NoDuplicates(r.communicationQuirks)
  {
    MostFrequentWordsSpec(texts, 10);
    SignaturePhrasesSpec(texts);
    CommunicationQuirksSpec(texts, det);
    var avoidedWords := AvoidedWords(texts, COMMON_ENGLISH_WORDS, totalWords, det);
    SubsequenceLength(avoidedWords, COMMON_ENGLISH_WORDS);
    PersonalizationElements(
      SignaturePhrases(texts),
      MostFrequentWords(texts, 10),
      avoidedWords,
      CommunicationQuirks(texts, det))
  }

  /** The word count only matters for the avoided words: with any other
      count the other three lists are the same, and every common word the
      text does not contain is avoided either way. */
  lemma TotalWordsOnlyForAvoidedWords(texts: string, w1: nat, w2: nat, det: Detectors)
    ensures var a, b := AnalyzePersonalizationElements(texts, w1, det), AnalyzePersonalizationElements(texts, w2, det);
      a.signaturePhrases == b.signaturePhrases && a.commonWords == b.commonWords
      && a.communicationQuirks == b.communicationQuirks
    ensures w1 <= w2 ==> forall w :: w in AnalyzePersonalizationElements(texts, w1, det).avoidedWords ==>
      w in AnalyzePersonalizationElements(texts, w2, det).avoidedWords
  {
    var a, b := AvoidedWords(texts, COMMON_ENGLISH_WORDS, w1, det), AvoidedWords(texts, COMMON_ENGLISH_WORDS, w2, det);
    if w1 <= w2 {
      forall w | w in a
        ensures w in b
      {
        SubsequenceMembers(a, COMMON_ENGLISH_WORDS, w);
      }
    }
  }

  /** Every element of a subsequence is an element of the sequence. */
  lemma {:induction false} SubsequenceMembers(a: seq<string>, b: seq<string>, x: string)
    requires IsSubsequence(a, b) && x in a
    ensures x in b
    decreases |b|
  {
    if a[0] == b[0] {
      if x != a[0] {
        SubsequenceMembers(a[1..], b[1..], x);
      }
    } else {
      SubsequenceMembers(a, b[1..], x);
    }
  }
}
