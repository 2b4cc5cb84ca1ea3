/** The lexicon and the cue patterns of the analyzer.

    The word lists that the analyzer matches literally (the sentiment
    lexicon and the common English words) are constants here. The simple
    structural patterns are predicates over the text. Every other pattern is
    a regular expression whose match count the model does not compute: a
    `Detectors` value supplies those counts, one function of the text per
    pattern. */
module Patterns {
  import opened Text

  const POSITIVE_WORDS: seq<string> := ["good", "great", "happy", "love", "fantastic", "awesome",
    "amazing", "wonderful", "excellent", "perfect", "brilliant", "outstanding", "superb", "marvelous"]

  const NEGATIVE_WORDS: seq<string> := ["bad", "sad", "hate", "terrible", "awful", "frustrated",
    "angry", "disappointed", "upset", "annoyed", "furious", "devastated", "horrible", "dreadful"]

  const COMMON_ENGLISH_WORDS: seq<string> := ["the", "and", "or", "but", "in", "on", "at", "to",
    "for", "of", "with", "by"]

  /** What `text.match(re)` returns for a global regular expression: `null`
      when nothing matches, otherwise the array of matched substrings. */
  datatype MatchResult = NoMatch | Matches(found: seq<string>)

  /** The regular expressions the model keeps abstract, each a function from
      the text it is applied to to the result of `text.match`. */
  datatype Detectors = Detectors(
    contractions: string -> MatchResult,      // CONTRACTION_RE
    slang: string -> MatchResult,             // SLANG_RE
    emoji: string -> MatchResult,             // EMOJI_RE
    polite: string -> MatchResult,            // POLITE_RE
    imperative: string -> MatchResult,        // IMPERATIVE_RE
    positiveEmoji: string -> MatchResult,     // POSITIVE_EMOJI_RE
    negativeEmoji: string -> MatchResult,     // NEGATIVE_EMOJI_RE
    capsWords: string -> MatchResult,         // /\b[A-Z]{2,}\b/g
    longCapsWords: string -> MatchResult,     // CAPS_WORDS_RE, three or more capitals
    interjections: string -> MatchResult,     // INTERJECTION_RE
    repetitions: string -> MatchResult,       // REPETITION_RE
    complexSentences: string -> MatchResult,  // COMPLEX_SENTENCE_RE
    passiveVoice: string -> MatchResult,      // PASSIVE_VOICE_RE
    firstPerson: string -> MatchResult,       // FIRST_PERSON_RE
    secondPerson: string -> MatchResult,      // SECOND_PERSON_RE
    thirdPerson: string -> MatchResult,       // THIRD_PERSON_RE
    uncertainty: string -> MatchResult,       // UNCERTAINTY_RE
    confidence: string -> MatchResult,        // CONFIDENCE_RE
    humor: string -> MatchResult,             // HUMOR_RE
    technical: string -> MatchResult,         // TECHNICAL_RE
    empathy: string -> MatchResult,           // EMPATHY_RE
    time: string -> MatchResult,              // TIME_RE
    spatial: string -> MatchResult,           // SPATIAL_RE
    wholeWord: string -> string -> MatchResult) // word => new RegExp(`\\b${word}\\b`, 'gi')

  /** `text.match(/!/g)` and `text.match(/\?/g)` (QUESTION_RE), counted. */
  function ExclamationCount(text: string): nat { CountChar(text, '!') }
  function QuestionCount(text: string): nat { CountChar(text, '?') }

  /** EXCESSIVE_EXCLAMATION_RE, EXCESSIVE_QUESTION_RE and EXCESSIVE_ELLIPSIS_RE
      match somewhere. */
  predicate ExcessiveExclamation(text: string) { Contains(text, "!!!") }
  predicate ExcessiveQuestion(text: string) { Contains(text, "???") }
  predicate ExcessiveEllipsis(text: string) { Contains(text, "...") }

  /** A line terminator as a UTF-16 code unit: what `.` does not match. */
  predicate IsLineTerminatorUnit(u: int) {
    u == 0x0A || u == 0x0D || u == 0x2028 || u == 0x2029
  }

  /** Some code unit other than a line terminator occurs three times in a
      row. */
  predicate RepeatedUnit(units: seq<int>) {
    exists i :: 0 <= i && i + 2 < |units| && units[i] == units[i + 1] == units[i + 2] && !IsLineTerminatorUnit(units[i])
  }

  /** LETTER_REPETITION_RE `(.)\1{2,}` matches somewhere. The pattern has no
      `u` flag, so `.` and the back-reference work on UTF-16 code units: a
      character outside the Basic Multilingual Plane is two different
      units, and three of them in a row are no match. */
  predicate LetterRepetition(text: string) {
    RepeatedUnit(CodeUnits(text))
  }

  /** SARCASM_RE `/\?{2,}|!\?|sarcasm|sarcastic|irony|ironic/i`. */
  predicate SarcasmCue(text: string) {
    || Contains(text, "??") || Contains(text, "!?")
    || Contains(ToLower(text), "sarcasm") || Contains(ToLower(text), "sarcastic")
    || Contains(ToLower(text), "irony") || Contains(ToLower(text), "ironic")
  }

  /** RHETORICAL_QUESTION_RE and INDIRECT_QUESTION_RE. */
  predicate RhetoricalCue(text: string) {
    Contains(ToLower(text), "rhetorical") || Contains(ToLower(text), "don't you think")
    || Contains(ToLower(text), "right?")
  }

  predicate IndirectCue(text: string) {
    Contains(ToLower(text), "could you") || Contains(ToLower(text), "would you")
    || Contains(ToLower(text), "might you")
  }

  /** GREETING_PATTERNS: anchored with `^` and without the multiline flag, so
      only the very start of the text counts. */
  predicate GreetingCue(text: string) {
    var t := ToLower(text);
    StartsWith(t, "hi") || StartsWith(t, "hello") || StartsWith(t, "hey")
    || StartsWith(t, "good morning") || StartsWith(t, "good afternoon") || StartsWith(t, "good evening")
  }

  predicate FormalGreetingCue(text: string) {
    Contains(ToLower(text), "good morning") || Contains(ToLower(text), "good afternoon")
    || Contains(ToLower(text), "good evening")
  }

  predicate WarmGreetingCue(text: string) {
    Contains(ToLower(text), "hey there") || Contains(ToLower(text), "hi there")
    || Contains(ToLower(text), "hello there")
  }

  /** CLOSING_PATTERNS, unanchored. */
  predicate ClosingCue(text: string) {
    Contains(ToLower(text), "bye") || Contains(ToLower(text), "goodbye")
    || Contains(ToLower(text), "see you") || Contains(ToLower(text), "talk to you")
    || Contains(ToLower(text), "take care") || Contains(ToLower(text), "cheers")
  }

  predicate FormalClosingCue(text: string) {
    Contains(ToLower(text), "sincerely") || Contains(ToLower(text), "best regards")
    || Contains(ToLower(text), "yours truly")
  }

  predicate WarmClosingCue(text: string) {
    Contains(ToLower(text), "take care") || Contains(ToLower(text), "talk soon")
    || Contains(ToLower(text), "see you soon")
  }

  // ----- properties of the lexicon and the cues -----

  /** No word is in both sentiment lists, so a token never scores both +1 and -1. */
  lemma SentimentListsDisjoint()
    ensures forall w :: w in POSITIVE_WORDS ==> w !in NEGATIVE_WORDS
  {
  }

  /** The reference list for avoided words has twelve distinct lower-case entries. */
  lemma CommonWordsShape()
    ensures |COMMON_ENGLISH_WORDS| == 12 && NoDuplicates(COMMON_ENGLISH_WORDS)
    ensures forall w :: w in COMMON_ENGLISH_WORDS ==> ToLower(w) == w
  {
  }

  /** A repetition in a suffix is a repetition of the whole. */
  lemma RepeatedUnitSuffix(prefix: seq<int>, units: seq<int>)
    requires RepeatedUnit(units)
    ensures RepeatedUnit(prefix + units)
  {
    var i :| 0 <= i && i + 2 < |units| && units[i] == units[i + 1] == units[i + 2] && !IsLineTerminatorUnit(units[i]);
    var all := prefix + units;
    assert all[|prefix| + i] == units[i] && all[|prefix| + i + 1] == units[i + 1] && all[|prefix| + i + 2] == units[i + 2];
  }

  /** Three repeated characters below U+10000 anywhere are a letter
      repetition. */
  lemma {:induction false} TripleIsRepetition(text: string, c: char)
    requires c as int <= 0xFFFF && !IsLineTerminator(c) && Contains(text, [c, c, c])
    ensures LetterRepetition(text)
    decreases |text|
  {
    if StartsWith(text, [c, c, c]) {
      assert text == [c, c, c] + text[3..];
      CodeUnitsAppend([c, c, c], text[3..]);
      TripleUnits(c);
      var units := CodeUnits(text);
      assert units[0] == units[1] == units[2] == c as int;
    } else {
      TripleIsRepetition(text[1..], c);
      assert CodeUnits(text) == CharUnits(text[0]) + CodeUnits(text[1..]);
      RepeatedUnitSuffix(CharUnits(text[0]), CodeUnits(text[1..]));
    }
  }

  /** The code units of a character written three times. */
  lemma TripleUnits(c: char)
    ensures CodeUnits([c, c, c]) == CharUnits(c) + CharUnits(c) + CharUnits(c)
  {
    var u := CharUnits(c);
    assert [c][1..] == [];
    assert CodeUnits([c]) == u;
    assert [c, c][1..] == [c];
    assert CodeUnits([c, c]) == u + u;
    assert [c, c, c][1..] == [c, c];
    assert CodeUnits([c, c, c]) == u + (u + u);
  }

  /** A character above U+FFFF written three times is no letter repetition:
      its two surrogate halves differ. */
  lemma AstralTripleNoRepetition(c: char)
    requires c as int > 0xFFFF
    ensures !LetterRepetition([c, c, c])
  {
    var h, l := CharUnits(c)[0], CharUnits(c)[1];
    TripleUnits(c);
    assert CharUnits(c) == [h, l];
    var units := CodeUnits([c, c, c]);
    assert units == [h, l] + [h, l] + [h, l];
    assert forall i :: 0 <= i < 5 ==> units[i] != units[i + 1];
  }

  /** Any text with a run of three `!`, `?` or `.` also shows a letter
      repetition, so the quirk `excessive exclamation` never comes alone. */
  lemma ExcessivePunctuationIsRepetition(text: string)
    requires ExcessiveExclamation(text) || ExcessiveQuestion(text) || ExcessiveEllipsis(text)
    ensures LetterRepetition(text)
  {
    if ExcessiveExclamation(text) {
      TripleIsRepetition(text, '!');
    } else if ExcessiveQuestion(text) {
      TripleIsRepetition(text, '?');
    } else {
      TripleIsRepetition(text, '.');
    }
  }

  /** `???` contains `??`, so it is also a sarcasm cue. */
  lemma TripleQuestionIsSarcasm(text: string)
    requires ExcessiveQuestion(text)
    ensures SarcasmCue(text)
  {
    ContainsPrefix(text, "???", 2);
    assert "???"[..2] == "??";
  }

  /** A greeting only counts at the very start of the text: after a first
      message, a greeting word in a later message is not seen. */
  lemma GreetingOnlyAtStart()
    ensures GreetingCue("Hello there")
    ensures !GreetingCue("ok\nhello there")
  {
    assert ToLower("Hello there")[..5] == "hello";
    var t := ToLower("ok\nhello there");
    assert t[0] == 'o';
  }

  /** Text inserted after the start never removes a greeting cue. */
  lemma GreetingCueKeptByAppending(text: string, more: string)
    requires GreetingCue(text)
    ensures GreetingCue(text + more)
  {
    var t, u := ToLower(text), ToLower(text + more);
    assert u[..|t|] == t;
  }
}
