/** `detectCommunicationQuirks`: six tests on the text, each pushing a fixed
    label onto a list when it holds. */
module Quirks {
  import opened Text
  import opened Patterns
  import opened Utils

  const EXCESSIVE_EXCLAMATION: string := "excessive exclamation"
  const EXCESSIVE_QUESTIONING: string := "excessive questioning"
  const EXCESSIVE_ELLIPSIS: string := "excessive ellipsis"
  const FREQUENT_CAPS: string := "frequent caps"
  const LETTER_REPETITION: string := "letter repetition"
  const HEAVY_EMOJI_USAGE: string := "heavy emoji usage"

  /** The quirk labels, in the order `detectCommunicationQuirks` tests them. */
  const QUIRK_LABELS: seq<string> := [EXCESSIVE_EXCLAMATION, EXCESSIVE_QUESTIONING,
    EXCESSIVE_ELLIPSIS, FREQUENT_CAPS, LETTER_REPETITION, HEAVY_EMOJI_USAGE]

  /** The six quirk tests: a run of three `!`, `?` or `.`, a word of three or
      more capitals, a character repeated three times, more than five emoji. */
  function QuirkTests(text: string, det: Detectors): (r: seq<bool>)
    ensures |r| == |QUIRK_LABELS|
  {
    [ExcessiveExclamation(text), ExcessiveQuestion(text), ExcessiveEllipsis(text),
     CountMatches(text, det.longCapsWords) > 0, LetterRepetition(text),
     CountMatches(text, det.emoji) > 5]
  }

  /** What one `if (test) list.push(label)` adds. */
  function Optional(test: bool, name: string): seq<string> {
    if test then [name] else []
  }

  /** `detectCommunicationQuirks`: the label of each test that holds, in
      test order. */
  function CommunicationQuirks(text: string, det: Detectors): seq<string> {
    Optional(ExcessiveExclamation(text), EXCESSIVE_EXCLAMATION)
    + Optional(ExcessiveQuestion(text), EXCESSIVE_QUESTIONING)
    + Optional(ExcessiveEllipsis(text), EXCESSIVE_ELLIPSIS)
    + Optional(CountMatches(text, det.longCapsWords) > 0, FREQUENT_CAPS)
    + Optional(LetterRepetition(text), LETTER_REPETITION)
    + Optional(CountMatches(text, det.emoji) > 5, HEAVY_EMOJI_USAGE)
  }

  /** Selection from the first `k` labels: the selection from the first
      `k - 1`, then label `k - 1` if its test holds. */
  lemma SelectedPrefix(labels: seq<string>, tests: seq<bool>, k: nat)
    requires |tests| == |labels| && 1 <= k <= |labels|
    ensures Selected(labels[..k], tests[..k]) ==
      Selected(labels[..k - 1], tests[..k - 1]) + Optional(tests[k - 1], labels[k - 1])
  {
    SelectedSteps(labels[..k], tests[..k]);
    assert labels[..k][..k - 1] == labels[..k - 1];
    assert tests[..k][..k - 1] == tests[..k - 1];
  }

  /** Selecting from six labels, written out push by push. */
  lemma SelectedSix(labels: seq<string>, tests: seq<bool>)
    requires |labels| == 6 && |tests| == 6
    ensures Selected(labels, tests) ==
      Optional(tests[0], labels[0]) + Optional(tests[1], labels[1]) + Optional(tests[2], labels[2])
      + Optional(tests[3], labels[3]) + Optional(tests[4], labels[4]) + Optional(tests[5], labels[5])
  {
    var o0, o1, o2 := Optional(tests[0], labels[0]), Optional(tests[1], labels[1]), Optional(tests[2], labels[2]);
    var o3, o4, o5 := Optional(tests[3], labels[3]), Optional(tests[4], labels[4]), Optional(tests[5], labels[5]);
    assert labels[..0] == [] && tests[..0] == [];
    SelectedPrefix(labels, tests, 1);
    assert Selected(labels[..1], tests[..1]) == o0;
    SelectedPrefix(labels, tests, 2);
    assert Selected(labels[..2], tests[..2]) == o0 + o1;
    SelectedPrefix(labels, tests, 3);
    assert Selected(labels[..3], tests[..3]) == o0 + o1 + o2;
    SelectedPrefix(labels, tests, 4);
    assert Selected(labels[..4], tests[..4]) == o0 + o1 + o2 + o3;
    SelectedPrefix(labels, tests, 5);
    assert Selected(labels[..5], tests[..5]) == o0 + o1 + o2 + o3 + o4;
    SelectedPrefix(labels, tests, 6);
    assert labels[..6] == labels && tests[..6] == tests;
  }

  /** Selecting from the six quirk labels, written out push by push. */
  lemma SelectedQuirkLabels(tests: seq<bool>)
    requires |tests| == 6
    ensures Selected(QUIRK_LABELS, tests) ==
      Optional(tests[0], EXCESSIVE_EXCLAMATION)
      + Optional(tests[1], EXCESSIVE_QUESTIONING)
      + Optional(tests[2], EXCESSIVE_ELLIPSIS)
      + Optional(tests[3], FREQUENT_CAPS)
      + Optional(tests[4], LETTER_REPETITION)
      + Optional(tests[5], HEAVY_EMOJI_USAGE)
  {
    SelectedSix(QUIRK_LABELS, tests);
  }

  /** The quirks are an order-preserving selection of the six labels with
      no repeats; `heavy emoji usage` needs more than five emoji, and an
      excessive-punctuation quirk always comes with `letter repetition`. */
  lemma CommunicationQuirksSpec(text: string, det: Detectors)
    ensures var r := CommunicationQuirks(text, det);
      && IsSubsequence(r, QUIRK_LABELS)
      && NoDuplicates(r)
      && |r| <= |QUIRK_LABELS|
      && (EXCESSIVE_EXCLAMATION in r <==> ExcessiveExclamation(text))
      && (EXCESSIVE_QUESTIONING in r <==> ExcessiveQuestion(text))
      && (EXCESSIVE_ELLIPSIS in r <==> ExcessiveEllipsis(text))
      && (FREQUENT_CAPS in r <==> CountMatches(text, det.longCapsWords) > 0)
      && (LETTER_REPETITION in r <==> LetterRepetition(text))
      && (HEAVY_EMOJI_USAGE in r <==> CountMatches(text, det.emoji) > 5)
      && (EXCESSIVE_EXCLAMATION in r ==> LETTER_REPETITION in r)
  {
    var r := CommunicationQuirks(text, det);
    var tests := QuirkTests(text, det);
    SelectedQuirkLabels(tests);
    assert r == Selected(QUIRK_LABELS, tests);
    assert NoDuplicates(QUIRK_LABELS);
    SelectedSpec(QUIRK_LABELS, tests);
    SubsequenceLength(r, QUIRK_LABELS);
    if ExcessiveExclamation(text) {
      ExcessivePunctuationIsRepetition(text);
    }
  }

  /** `detectCommunicationQuirks`: one test after another, each pushing its
      label onto the list. */
  method DetectCommunicationQuirks(text: string, det: Detectors) returns (quirks: seq<string>)
    ensures quirks == CommunicationQuirks(text, det)
  {
    quirks := [];
    if ExcessiveExclamation(text) {
      quirks := quirks + [EXCESSIVE_EXCLAMATION];
    }
    assert quirks == Optional(ExcessiveExclamation(text), EXCESSIVE_EXCLAMATION);
    ghost var q1 := quirks;
    if ExcessiveQuestion(text) {
      quirks := quirks + [EXCESSIVE_QUESTIONING];
    }
    assert quirks == q1 + Optional(ExcessiveQuestion(text), EXCESSIVE_QUESTIONING);
    ghost var q2 := quirks;
    if ExcessiveEllipsis(text) {
      quirks := quirks + [EXCESSIVE_ELLIPSIS];
    }
    assert quirks == q2 + Optional(ExcessiveEllipsis(text), EXCESSIVE_ELLIPSIS);
    ghost var q3 := quirks;
    if CountMatches(text, det.longCapsWords) > 0 {
      quirks := quirks + [FREQUENT_CAPS];
    }
    assert quirks == q3 + Optional(CountMatches(text, det.longCapsWords) > 0, FREQUENT_CAPS);
    ghost var q4 := quirks;
    if LetterRepetition(text) {
      quirks := quirks + [LETTER_REPETITION];
    }
    assert quirks == q4 + Optional(LetterRepetition(text), LETTER_REPETITION);
    ghost var q5 := quirks;
    if CountMatches(text, det.emoji) > 5 {
      quirks := quirks + [HEAVY_EMOJI_USAGE];
    }
    assert quirks == q5 + Optional(CountMatches(text, det.emoji) > 5, HEAVY_EMOJI_USAGE);
  }
}
