/** The communication-pattern classifiers: question style, greeting and
    closing style, and the response pattern of the message lengths. */
module CommunicationPatterns {
  import opened JsNumber
  import opened Text
  import opened ToneProfileTypes
  import opened Patterns
  import opened Utils

  /** `analyzeQuestionStyle`: more than 0.3 question marks per message are
      clarifying, whatever the cues; then a rhetorical cue, then an
      indirect cue; otherwise direct. `probing` and `leading` are never
      produced. */
  function AnalyzeQuestionStyle(questionCount: nat, rhetorical: bool, indirect: bool, totalMsgs: nat): (r: QuestionStyle)
    ensures r.Clarifying? <==> RateAbove(questionCount, totalMsgs, 3, 10)
    ensures r.Rhetorical? <==> !RateAbove(questionCount, totalMsgs, 3, 10) && rhetorical
    ensures r.Indirect? <==> !RateAbove(questionCount, totalMsgs, 3, 10) && !rhetorical && indirect
    ensures r.Direct? <==> !RateAbove(questionCount, totalMsgs, 3, 10) && !rhetorical && !indirect
    ensures questionCount == 0 && !rhetorical && !indirect ==> r.Direct?
  {
    var questionRate := Quotient(questionCount as real, totalMsgs as real);
    RateComparisons(questionCount, totalMsgs, 3, 10);
    if Greater(questionRate, 0.3) then QuestionStyle.Clarifying
    else if rhetorical then QuestionStyle.Rhetorical
    else if indirect then QuestionStyle.Indirect
    else QuestionStyle.Direct
  }

  /** `analyzeGreetingStyle`: a formal greeting anywhere wins over a warm
      one, and a warm one over a generic greeting at the very start; with
      none of them the style is minimal. A text that starts with a greeting
      is never minimal, and `none` is never produced. */
  function AnalyzeGreetingStyle(texts: string): (r: GreetingStyle)
    ensures r.Formal? <==> FormalGreetingCue(texts)
    ensures r.Warm? <==> !FormalGreetingCue(texts) && WarmGreetingCue(texts)
    ensures r.Casual? <==> !FormalGreetingCue(texts) && !WarmGreetingCue(texts) && GreetingCue(texts)
    ensures r.Minimal? ==> !GreetingCue(texts)
    ensures !r.None?
  {
    if FormalGreetingCue(texts) then GreetingStyle.Formal
    else if WarmGreetingCue(texts) then GreetingStyle.Warm
    else if GreetingCue(texts) then GreetingStyle.Casual
    else GreetingStyle.Minimal
  }

  /** A text that starts with "Good morning" (in any case) has a formal
      greeting: the formal cue is searched for anywhere, the generic one
      only at the start. */
  lemma GoodMorningIsFormal(texts: string)
    requires StartsWith(ToLower(texts), "good morning")
    ensures AnalyzeGreetingStyle(texts).Formal?
  {
    assert Contains(ToLower(texts), "good morning");
  }

  /** `analyzeClosingStyle`: formal closings win over warm ones, and warm
      ones over generic ones; with none of them the style is abrupt. */
  function AnalyzeClosingStyle(texts: string): (r: ClosingStyle)
    ensures r.Formal? <==> FormalClosingCue(texts)
    ensures r.Warm? <==> !FormalClosingCue(texts) && WarmClosingCue(texts)
    ensures r.Casual? <==> !FormalClosingCue(texts) && !WarmClosingCue(texts) && ClosingCue(texts)
    ensures r.Abrupt? <==> !FormalClosingCue(texts) && !WarmClosingCue(texts) && !ClosingCue(texts)
    ensures !r.None?
  {
    if FormalClosingCue(texts) then ClosingStyle.Formal
    else if WarmClosingCue(texts) then ClosingStyle.Warm
    else if ClosingCue(texts) then ClosingStyle.Casual
    else ClosingStyle.Abrupt
  }

  /** `analyzeResponsePattern`: a length variation (standard deviation over
      mean) above 0.8 is spontaneous, below 0.3 deliberate; otherwise a mean
      below 20 characters is immediate and the rest thoughtful. Without a
      message, or with only empty messages, the variation is NaN and the
      label is immediate; messages that all have the same positive length
      have no variation and are deliberate. */
  function AnalyzeResponsePattern(messages: seq<string>): (r: ResponsePattern)
    ensures r.Spontaneous? <==> VariationGreater(AnalyzeMessageLengths(messages), 0.8)
    ensures r.Deliberate? <==> VariationLess(AnalyzeMessageLengths(messages), 0.3)
    ensures r.Immediate? ==> AnalyzeMessageLengths(messages).avgLength < 20.0
    ensures r.Thoughtful? ==> AnalyzeMessageLengths(messages).avgLength >= 20.0
    ensures (forall i :: 0 <= i < |messages| ==> messages[i] == "") ==> r.Immediate?
    ensures SameLength(messages) && messages[0] != []
      ==> r.Deliberate?
    ensures r.Spontaneous? || r.Deliberate? || r.Immediate? || r.Thoughtful?
  {
    var stats := AnalyzeMessageLengths(messages);
    AllEmptyMessages(messages);
    ConstantLengthsDeliberate(messages);
    if VariationGreater(stats, 0.8) then ResponsePattern.Spontaneous
    else if VariationLess(stats, 0.3) then ResponsePattern.Deliberate
    else if stats.avgLength < 20.0 then ResponsePattern.Immediate
    else ResponsePattern.Thoughtful
  }

  /** Empty messages, or none at all, have mean length 0. */
  lemma AllEmptyMessages(messages: seq<string>)
    ensures (forall i :: 0 <= i < |messages| ==> messages[i] == "") ==> AnalyzeMessageLengths(messages).avgLength == 0.0
  {
    if forall i :: 0 <= i < |messages| ==> messages[i] == "" {
      var lengths := MessageLengths(messages);
      assert AllAtMost(lengths, 0.0);
      AvgAtMost(lengths, 0.0);
    }
  }

  /** Messages that all have the same positive length have a positive mean
      and no variance: below every positive threshold, above none. */
  lemma ConstantLengthsDeliberate(messages: seq<string>)
    ensures SameLength(messages) && messages[0] != []
      ==> VariationLess(AnalyzeMessageLengths(messages), 0.3) && !VariationGreater(AnalyzeMessageLengths(messages), 0.8)
  {
    if SameLength(messages) && messages[0] != []
    {
      var s := AnalyzeMessageLengths(messages);
      Utf16LengthBounds(messages[0]);
      assert s.avgLength >= 1.0 && s.lengthVariance == 0.0;
      assert s.avgLength * s.avgLength >= 1.0;
    }
  }

  /** A single non-empty message is deliberate. */
  lemma SingleMessageIsDeliberate(m: string)
    requires |m| > 0
    ensures AnalyzeResponsePattern([m]).Deliberate?
  {
  }

  /** `msg.length` counts UTF-16 code units: four emoji above U+FFFF are as
      long as eight ASCII letters, so these two messages do not vary in
      length and the pattern is deliberate. */
  lemma SurrogatePairsCountTwice()
    ensures Utf16Length("\U{1F602}\U{1F602}\U{1F602}\U{1F602}") == 8
    ensures AnalyzeResponsePattern(["\U{1F602}\U{1F602}\U{1F602}\U{1F602}", "abcdefgh"]).Deliberate?
  {
    var e := "\U{1F602}\U{1F602}\U{1F602}\U{1F602}";
    Utf16LengthBounds(e);
    Utf16LengthBounds("abcdefgh");
    assert Utf16Length("abcdefgh") == 8;
  }
}
