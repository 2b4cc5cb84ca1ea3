/** The numeric and textual helpers of the analyzer: match counting, mean
    and variance, word and sentence segmentation, vocabulary diversity,
    avoided words, the lexicon sentiment score, and the sentence and
    message-length statistics. */
module Utils {
  import opened JsNumber
  import opened Text
  import opened Patterns

  /** `countMatches`: the number of matches, zero when `match` gives null. */
  function CountMatches(text: string, re: string -> MatchResult): (r: nat)
    ensures re(text).NoMatch? ==> r == 0
    ensures re(text).Matches? ==> r == |re(text).found|
  {
    match re(text)
    case NoMatch => 0
    case Matches(found) => |found|
  }

  // ----- mean and variance -----

  function Sum(xs: seq<real>): real
    decreases |xs|
  {
    if xs == [] then 0.0 else Sum(xs[..|xs| - 1]) + xs[|xs| - 1]
  }

  /** `avg`: the sum over the length, where an empty array divides by 1. */
  function Avg(xs: seq<real>): real {
    Sum(xs) / (if |xs| == 0 then 1 else |xs|) as real
  }

  function SquaredDeviations(xs: seq<real>, m: real): (r: seq<real>)
    ensures |r| == |xs|
    ensures forall i :: 0 <= i < |xs| ==> r[i] == (xs[i] - m) * (xs[i] - m)
  {
    seq(|xs|, i requires 0 <= i < |xs| => (xs[i] - m) * (xs[i] - m))
  }

  /** The square of `stdDev`: the mean squared deviation from the mean. */
  function Variance(xs: seq<real>): real {
    Avg(SquaredDeviations(xs, Avg(xs)))
  }

  predicate AllAtLeast(xs: seq<real>, lo: real) {
    forall i :: 0 <= i < |xs| ==> lo <= xs[i]
  }

  predicate AllAtMost(xs: seq<real>, hi: real) {
    forall i :: 0 <= i < |xs| ==> xs[i] <= hi
  }

  lemma {:induction false} SumAtLeast(xs: seq<real>, lo: real)
    requires AllAtLeast(xs, lo)
    ensures Sum(xs) >= |xs| as real * lo
    decreases |xs|
  {
    if xs != [] {
      SumAtLeast(xs[..|xs| - 1], lo);
    }
  }

  lemma {:induction false} SumAtMost(xs: seq<real>, hi: real)
    requires AllAtMost(xs, hi)
    ensures Sum(xs) <= |xs| as real * hi
    decreases |xs|
  {
    if xs != [] {
      SumAtMost(xs[..|xs| - 1], hi);
    }
  }

  /** The mean of an empty array is 0; otherwise it is at least every lower
      bound of the elements. */
  lemma AvgAtLeast(xs: seq<real>, lo: real)
    requires AllAtLeast(xs, lo)
    ensures xs == [] ==> Avg(xs) == 0.0
    ensures xs != [] ==> lo <= Avg(xs)
  {
    if xs != [] {
      SumAtLeast(xs, lo);
      QuotientVersusProduct(Sum(xs), |xs| as real, lo);
    }
  }

  /** Likewise, a non-empty array's mean is at most every upper bound. */
  lemma AvgAtMost(xs: seq<real>, hi: real)
    requires AllAtMost(xs, hi)
    ensures xs != [] ==> Avg(xs) <= hi
  {
    if xs != [] {
      SumAtMost(xs, hi);
      QuotientVersusProduct(Sum(xs), |xs| as real, hi);
    }
  }

  /** A sum of non-negative numbers is zero only when every one of them is. */
  lemma {:induction false} SumZero(xs: seq<real>)
    requires AllAtLeast(xs, 0.0) && Sum(xs) == 0.0
    ensures forall i :: 0 <= i < |xs| ==> xs[i] == 0.0
    decreases |xs|
  {
    if xs != [] {
      var init := xs[..|xs| - 1];
      assert AllAtLeast(init, 0.0);
      SumAtLeast(init, 0.0);
      SumZero(init);
      assert forall i :: 0 <= i < |init| ==> xs[i] == init[i];
    }
  }

  /** Non-negative numbers with a zero mean are all zero. */
  lemma ZeroMean(xs: seq<real>)
    requires AllAtLeast(xs, 0.0)
    ensures Avg(xs) == 0.0 ==> forall i :: 0 <= i < |xs| ==> xs[i] == 0.0
  {
    if xs != [] && Avg(xs) == 0.0 {
      assert Sum(xs) == Avg(xs) * |xs| as real;
      SumZero(xs);
    }
  }

  lemma VarianceNonNegative(xs: seq<real>)
    ensures Variance(xs) >= 0.0
  {
    var m := Avg(xs);
    var d := SquaredDeviations(xs, m);
    forall i | 0 <= i < |d|
      ensures 0.0 <= d[i]
    {
      SquareNonNegative(xs[i] - m);
    }
    AvgAtLeast(d, 0.0);
  }

  lemma SquareNonNegative(y: real)
    ensures y * y >= 0.0
  {
  }

  /** Equal elements have no spread. */
  lemma ConstantVariance(xs: seq<real>, c: real)
    requires forall i :: 0 <= i < |xs| ==> xs[i] == c
    ensures Variance(xs) == 0.0
  {
    if xs != [] {
      assert AllAtLeast(xs, c) && AllAtMost(xs, c);
      AvgAtLeast(xs, c);
      AvgAtMost(xs, c);
      var d := SquaredDeviations(xs, c);
      assert AllAtLeast(d, 0.0) && AllAtMost(d, 0.0);
      AvgAtLeast(d, 0.0);
      AvgAtMost(d, 0.0);
    }
  }

  /** Equal elements have themselves as mean and no spread. */
  lemma ConstantLengths(xs: seq<real>, c: real)
    requires xs != [] && forall i :: 0 <= i < |xs| ==> xs[i] == c
    ensures Avg(xs) == c && Variance(xs) == 0.0
  {
    assert AllAtLeast(xs, c) && AllAtMost(xs, c);
    AvgAtLeast(xs, c);
    AvgAtMost(xs, c);
    ConstantVariance(xs, c);
  }

  /** Turns an array of counts into the numbers `avg` and `stdDev` receive. */
  function AsReals(ns: seq<nat>): (r: seq<real>)
    ensures |r| == |ns|
    ensures forall i :: 0 <= i < |ns| ==> r[i] == ns[i] as real
  {
    seq(|ns|, i requires 0 <= i < |ns| => ns[i] as real)
  }

  // ----- words -----

  /** `text.toLowerCase().split(/\W+/)`. */
  function Tokens(text: string): seq<string> {
    Split(ToLower(text), IsNonWordChar)
  }

  /** The same, keeping only the words longer than two characters. */
  function Words(text: string): (r: seq<string>)
    ensures forall i :: 0 <= i < |r| ==> |r[i]| > 2
  {
    Filter(Tokens(text), w => |w| > 2)
  }

  /** The words of a text are made of word characters only, all lower case. */
  lemma WordsAreLowerWordChars(text: string)
    ensures forall i, j :: 0 <= i < |Words(text)| && 0 <= j < |Words(text)[i]| ==>
      IsWordChar(Words(text)[i][j]) && !('A' <= Words(text)[i][j] <= 'Z')
  {
    var ts := Tokens(text);
    SplitPieces(ToLower(text), IsNonWordChar);
    forall i, j | 0 <= i < |Words(text)| && 0 <= j < |Words(text)[i]|
      ensures IsWordChar(Words(text)[i][j]) && !('A' <= Words(text)[i][j] <= 'Z')
    {
      var w := Words(text)[i];
      assert w in ts;
      var k :| 0 <= k < |ts| && ts[k] == w;
      assert w[j] in ToLower(text);
    }
  }

  /** A sequence without repeated elements is its own list of distinct
      elements. */
  lemma {:induction false} DistinctOfNoDuplicates<T>(s: seq<T>)
    requires NoDuplicates(s)
    ensures Distinct(s) == s
    decreases |s|
  {
    if s != [] {
      var init := s[..|s| - 1];
      assert NoDuplicates(init);
      DistinctOfNoDuplicates(init);
      assert s[|s| - 1] !in init;
      DistinctSpec(init);
      assert init + [s[|s| - 1]] == s;
    }
  }

  lemma UnitFraction(a: nat, b: nat)
    requires 1 <= a <= b
    ensures 0.0 < a as real / b as real <= 1.0
    ensures a == b ==> a as real / b as real == 1.0
  {
    QuotientVersusProduct(a as real, b as real, 0.0);
    QuotientVersusProduct(a as real, b as real, 1.0);
  }

  /** `getVocabularyDiversity`: distinct words over words. Without any word
      the division is 0/0, which is NaN. */
  function VocabularyDiversity(text: string): (r: Num)
    ensures Words(text) == [] ==> r == NaN
    ensures Words(text) != [] ==> r.Finite? && 0.0 < r.value <= 1.0
    ensures Words(text) != [] && NoDuplicates(Words(text)) ==> r == Finite(1.0)
  {
    var ws := Words(text);
    var unique := |Distinct(ws)|;
    if ws == [] then Quotient(unique as real, |ws| as real)
    else
      DistinctSpec(ws);
      UnitFraction(unique, |ws|);
      if NoDuplicates(ws) then DistinctOfNoDuplicates(ws); Quotient(unique as real, |ws| as real)
      else Quotient(unique as real, |ws| as real)
  }

  // ----- sentences -----

  /** `text.split(/[.!?]+/).filter(s => s.trim().length)`. */
  function Sentences(text: string): (r: seq<string>)
    ensures forall i :: 0 <= i < |r| ==> Trim(r[i]) != ""
  {
    Filter(Split(text, IsSentenceEnd), s => Trim(s) != "")
  }

  /** `s.trim().split(/\s+/).length`. */
  function TokenCount(s: string): nat {
    |Split(Trim(s), IsSpace)|
  }

  function TokenCounts(sentences: seq<string>): (r: seq<nat>)
    ensures |r| == |sentences|
    ensures forall i :: 0 <= i < |r| ==> r[i] == TokenCount(sentences[i]) && r[i] >= 1
  {
    seq(|sentences|, i requires 0 <= i < |sentences| => TokenCount(sentences[i]))
  }

  /** The result of `analyzeSentences`; `tokenVariance` stands for
      `stdDevTokens`, its square root. */
  datatype SentenceStats = SentenceStats(avgTokens: real, tokenVariance: real, sentences: seq<string>)

  /** `analyzeSentences`: the mean and the spread of the sentence lengths in
      tokens. Without any sentence both are 0; otherwise every sentence has
      at least one token, so the mean is at least 1. */
  function AnalyzeSentences(text: string): (r: SentenceStats)
    ensures r.sentences == Sentences(text)
    ensures r.tokenVariance >= 0.0
    ensures r.sentences == [] ==> r.avgTokens == 0.0 && r.tokenVariance == 0.0
    ensures r.sentences != [] ==> r.avgTokens >= 1.0
  {
    var sentences := Sentences(text);
    var counts := AsReals(TokenCounts(sentences));
    AvgAtLeast(counts, 1.0);
    VarianceNonNegative(counts);
    SentenceStats(Avg(counts), Variance(counts), sentences)
  }

  // ----- message lengths -----

  /** The result of `analyzeMessageLengths`. The source's `lengthVariation`
      is `stdDev(lengths) / avgLength`; the model keeps the variance of the
      lengths, and `VariationGreater` and `VariationLess` compare the
      quotient with a threshold (see `JsNumber.SquareComparison`). */
  datatype LengthStats = LengthStats(avgLength: real, lengthVariance: real)

  /** `messages.map(msg => msg.length)`: lengths in UTF-16 code units. */
  function MessageLengths(messages: seq<string>): (r: seq<real>)
    ensures |r| == |messages|
    ensures forall i :: 0 <= i < |r| ==> r[i] == Utf16Length(messages[i]) as real
  {
    seq(|messages|, i requires 0 <= i < |messages| => Utf16Length(messages[i]) as real)
  }

  /** At least one message, and all of them as long as the first. */
  predicate SameLength(messages: seq<string>) {
    messages != [] && forall i :: 0 <= i < |messages| ==> Utf16Length(messages[i]) == Utf16Length(messages[0])
  }

  function AnalyzeMessageLengths(messages: seq<string>): (r: LengthStats)
    ensures r.avgLength >= 0.0 && r.lengthVariance >= 0.0
    ensures messages == [] ==> r.avgLength == 0.0
    ensures r.avgLength == 0.0 ==> r.lengthVariance == 0.0
    ensures SameLength(messages) ==>
      r.avgLength == Utf16Length(messages[0]) as real && r.lengthVariance == 0.0
  {
    var lengths := MessageLengths(messages);
    assert AllAtLeast(lengths, 0.0);
    AvgAtLeast(lengths, 0.0);
    VarianceNonNegative(lengths);
    ZeroMean(lengths);
    if Avg(lengths) == 0.0 then
      ConstantVariance(lengths, 0.0);
      LengthStats(Avg(lengths), Variance(lengths))
    else if SameLength(messages) then
      ConstantLengths(lengths, Utf16Length(messages[0]) as real);
      LengthStats(Avg(lengths), Variance(lengths))
    else
      LengthStats(Avg(lengths), Variance(lengths))
  }

  /** `lengthVariation > c` for a threshold c >= 0. With a positive mean this
      is the squared comparison; with a zero mean the variance is zero too
      and the quotient is NaN, which is greater than nothing. */
  predicate VariationGreater(s: LengthStats, c: real) {
    s.avgLength > 0.0 && s.lengthVariance > c * c * (s.avgLength * s.avgLength)
  }

  /** `lengthVariation < c`, likewise. */
  predicate VariationLess(s: LengthStats, c: real) {
    s.avgLength > 0.0 && s.lengthVariance < c * c * (s.avgLength * s.avgLength)
  }

  /** A spread `sd` over a mean, compared with a threshold c >= 0 in
      JavaScript, is the variance `sd * sd` compared with `c² · mean²` as long
      as a zero mean comes with a zero variance: then `sd` is 0 and the
      quotient is NaN. */
  lemma SpreadOverMean(sd: real, variance: real, mean: real, c: real)
    requires sd >= 0.0 && sd * sd == variance && mean >= 0.0 && c >= 0.0
    requires mean == 0.0 ==> variance == 0.0
    ensures (mean > 0.0 && variance > c * c * (mean * mean)) <==> Greater(Quotient(sd, mean), c)
    ensures (mean > 0.0 && variance < c * c * (mean * mean)) <==> Less(Quotient(sd, mean), c)
  {
    if mean == 0.0 {
      SquareMonotone(sd, 0.0);
    } else {
      SquareComparison(sd, variance, mean, c);
    }
  }

  /** With `sd` the standard deviation of the message lengths (not negative,
      its square the variance), `VariationGreater` and `VariationLess` are
      the JavaScript comparisons of `sd / avgLength` with the threshold. */
  lemma VariationIsSpreadOverMean(messages: seq<string>, sd: real, c: real)
    requires sd >= 0.0 && sd * sd == AnalyzeMessageLengths(messages).lengthVariance && c >= 0.0
    ensures VariationGreater(AnalyzeMessageLengths(messages), c)
      <==> Greater(Quotient(sd, AnalyzeMessageLengths(messages).avgLength), c)
    ensures VariationLess(AnalyzeMessageLengths(messages), c)
      <==> Less(Quotient(sd, AnalyzeMessageLengths(messages).avgLength), c)
  {
    var s := AnalyzeMessageLengths(messages);
    SpreadOverMean(sd, s.lengthVariance, s.avgLength, c);
  }

  /** `stdDevTokens > avgTokens * 0.5`, stated on the variance. */
  predicate SpreadAboveHalfMean(s: SentenceStats) {
    s.tokenVariance > 0.25 * (s.avgTokens * s.avgTokens)
  }

  /** With `sd` the standard deviation of the sentence lengths (not
      negative, its square the variance), `SpreadAboveHalfMean` is the
      comparison the source makes; `AnalyzeSentences` never gives a negative
      mean. */
  lemma SpreadIsStdDevComparison(s: SentenceStats, sd: real)
    requires sd >= 0.0 && sd * sd == s.tokenVariance && s.avgTokens >= 0.0
    ensures SpreadAboveHalfMean(s) <==> sd > s.avgTokens * 0.5
  {
    SquareMonotone(sd, s.avgTokens * 0.5);
    assert (s.avgTokens * 0.5) * (s.avgTokens * 0.5) == 0.25 * (s.avgTokens * s.avgTokens);
  }

  // ----- avoided words -----

  /** `getAvoidedWords`: the common words that do not occur in the lower-cased
      text, or whose whole-word matches are fewer than one per hundred
      words. */
  function AvoidedWords(text: string, commonWords: seq<string>, totalWords: nat, det: Detectors): (r: seq<string>)
    ensures IsSubsequence(r, commonWords)
    ensures forall i :: 0 <= i < |commonWords| ==>
      (commonWords[i] in r <==>
        !Contains(ToLower(text), commonWords[i])
        || CountMatches(text, det.wholeWord(commonWords[i])) as real < totalWords as real * 0.01)
  {
    var avoided := (w: string) =>
      !Contains(ToLower(text), w) || CountMatches(text, det.wholeWord(w)) as real < totalWords as real * 0.01;
    FilterIsSubsequence(commonWords, avoided);
    Filter(commonWords, avoided)
  }

  // ----- sentiment -----

  /** The contribution of one token: +1 if it is a positive word, -1 if it is
      a negative word (both apply to a word in both lists). */
  function TokenSentiment(w: string, positiveWords: seq<string>, negativeWords: seq<string>): int {
    (if w in positiveWords then 1 else 0) - (if w in negativeWords then 1 else 0)
  }

  function TokensSentiment(ws: seq<string>, positiveWords: seq<string>, negativeWords: seq<string>): int
    decreases |ws|
  {
    if ws == [] then 0
    else
      TokensSentiment(ws[..|ws| - 1], positiveWords, negativeWords)
      + TokenSentiment(ws[|ws| - 1], positiveWords, negativeWords)
  }

  /** The score `calculateSentimentScore` computes: the token sentiments of
      every message, each split at non-word characters. */
  function SentimentScore(messages: seq<string>, positiveWords: seq<string>, negativeWords: seq<string>): int
    decreases |messages|
  {
    if messages == [] then 0
    else
      SentimentScore(messages[..|messages| - 1], positiveWords, negativeWords)
      + TokensSentiment(Tokens(messages[|messages| - 1]), positiveWords, negativeWords)
  }

  function TokenTotal(messages: seq<string>): nat
    decreases |messages|
  {
    if messages == [] then 0 else TokenTotal(messages[..|messages| - 1]) + |Tokens(messages[|messages| - 1])|
  }

  /** `calculateSentimentScore`, a loop over the messages and their tokens. */
  method CalculateSentimentScore(messages: seq<string>, positiveWords: seq<string>, negativeWords: seq<string>)
    returns (sentimentScore: int)
    ensures sentimentScore == SentimentScore(messages, positiveWords, negativeWords)
  {
    sentimentScore := 0;
    for i := 0 to |messages|
      invariant sentimentScore == SentimentScore(messages[..i], positiveWords, negativeWords)
    {
      var words := Tokens(messages[i]);
      ghost var before := sentimentScore;
      for j := 0 to |words|
        invariant sentimentScore == before + TokensSentiment(words[..j], positiveWords, negativeWords)
      {
        if words[j] in positiveWords {
          sentimentScore := sentimentScore + 1;
        }
        if words[j] in negativeWords {
          sentimentScore := sentimentScore - 1;
        }
        assert words[..j + 1][..j] == words[..j];
      }
      assert words[..|words|] == words;
      assert messages[..i + 1][..i] == messages[..i];
    }
    assert messages[..|messages|] == messages;
  }

  /** The score of several conversations is the sum of their scores. */
  lemma {:induction false} SentimentAdditive(a: seq<string>, b: seq<string>, positiveWords: seq<string>, negativeWords: seq<string>)
    ensures SentimentScore(a + b, positiveWords, negativeWords)
      == SentimentScore(a, positiveWords, negativeWords) + SentimentScore(b, positiveWords, negativeWords)
    decreases |b|
  {
    if b == [] {
      assert a + b == a;
    } else {
      var b0 := b[..|b| - 1];
      SentimentAdditive(a, b0, positiveWords, negativeWords);
      assert (a + b)[..|a + b| - 1] == a + b0;
    }
  }

  lemma {:induction false} TokensSentimentBounded(ws: seq<string>, positiveWords: seq<string>, negativeWords: seq<string>)
    ensures -(|ws| as int) <= TokensSentiment(ws, positiveWords, negativeWords) <= |ws|
    decreases |ws|
  {
    if ws != [] {
      TokensSentimentBounded(ws[..|ws| - 1], positiveWords, negativeWords);
    }
  }

  /** Every token moves the score by at most one. */
  lemma {:induction false} SentimentBounded(messages: seq<string>, positiveWords: seq<string>, negativeWords: seq<string>)
    ensures -(TokenTotal(messages) as int) <= SentimentScore(messages, positiveWords, negativeWords) <= TokenTotal(messages)
    decreases |messages|
  {
    if messages != [] {
      SentimentBounded(messages[..|messages| - 1], positiveWords, negativeWords);
      TokensSentimentBounded(Tokens(messages[|messages| - 1]), positiveWords, negativeWords);
    }
  }

  /** With disjoint lists a token is never positive and negative at once, so
      a text with no negative token scores at least zero. */
  lemma {:induction false} NoNegativeTokenScoresNonNegative(ws: seq<string>, positiveWords: seq<string>, negativeWords: seq<string>)
    requires forall i :: 0 <= i < |ws| ==> ws[i] !in negativeWords
    ensures TokensSentiment(ws, positiveWords, negativeWords) >= 0
    decreases |ws|
  {
    if ws != [] {
      NoNegativeTokenScoresNonNegative(ws[..|ws| - 1], positiveWords, negativeWords);
    }
  }
}
