# Tone profile engine, modelled in Dafny

This project models the rule-based tone-profile engine of the tone_adapter
browser extension. Given the messages a person wrote, the analyzer builds a
tone profile and the renderer turns that profile into a markdown report for
a language model. A tone profile holds:

- nineteen categorical labels: formality, politeness, emotion, humor,
  question style and so on;
- four personalization lists: signature phrases, common words, avoided words
  and quirks;
- a record of per-message and per-sentence rates.

The model covers these parts:

- **Classifiers** (`communication_style.dfy`, `personality_traits.dfy`,
  `communication_patterns.dfy`, `linguistic_sophistication.dfy`,
  `behavioral_patterns.dfy`). Each counts cues, divides each count by the
  number of messages N, and walks a chain of threshold tests in which the
  first test that holds decides the label. The bodies follow the source's
  JavaScript division. Dividing by zero gives NaN or an infinity, as in
  `js_number.dfy`. The contracts give every label band both ways (if and
  only if), as integer cross-products: `RateAbove(c, N, 1, 5)` means
  "c/N > 0.2".
- **Text statistics and personalization miners** (`text.dfy`, `utils.dfy`,
  `frequency.dfy`, `quirks.dfy`, `personalization.dfy`). The word-frequency
  and signature-phrase miners fill a count dictionary in a loop. The quirk
  detector pushes labels onto a list. The sentiment scorer updates a
  counter in nested loops. Each of these is a method, proved equal to a
  specification function whose properties are proved as lemmas.
- **Lexicon and structural cues** (`patterns.dfy`). The word lists are
  constants. The simple cue patterns are string predicates: runs of `!`,
  `?` and `.`, letter repetition, sarcasm, and the greeting and closing
  cues. Every other regular expression is an abstract `Detectors` function.
- **Metrics record** (`metrics.dfy`) and **assembler** (`analyzer.dfy`):
  `calculateDetailedMetrics` and `generateToneProfile`.
- **Validators** (`validation.dfy`). Two validators are modelled as
  separate functions over the same issue list:
  - the narrow one of `analyzer/validation.ts`;
  - the superset one of `dist/analyzer/validation.js`.

  The file also models the default profile with its override merge.
- **Renderer** (`llm_generator.dfy`). The report is modelled as its list of
  lines before the newline join. Both renderers are modelled: the
  TypeScript one validates with the narrow schema, the compiled one with
  the superset schema. The report functions take the description tables
  as a parameter, so the layout lemmas hold for any tables. The renderers
  pass the source's own tables (`DescriptionsOf`), and the lemmas about
  the descriptions shown use those tables.
- **Analyzer and renderer together** (`report.dfy`): which generated
  profiles each renderer accepts.

The profile stores its labels as strings, the runtime values, so that the
validators can be given any label. The classifiers return datatypes, and
the assembler stores each label's `Name()`.

A Dafny `string` is a sequence of Unicode scalar values, while a JavaScript
string is a sequence of UTF-16 code units. `Text.CodeUnits` gives the code
units of a string and `Text.Utf16Length` their number. The message lengths,
the sentence-length filter of the phrase miner and the letter-repetition
pattern (which has no `u` flag) are stated on code units, as the source
computes them.

## Model

| member | source | states |
|---|---|---|
| CommunicationStyle.AnalyzeFormality | analyzer/communication-style.ts:11-21 | slang above 0.2 per message is slang-heavy whatever the contractions; casual iff not slang-heavy and (slang > 0.1 or contractions > 0.2); formal iff slang ≤ 0.1 and contractions ≤ 0.05; semi-formal otherwise; the compiled chain has the same order: slang-heavy, casual, semi-formal, formal; the first match wins (compiled copy: dist/analyzer/communication-style.js:5-18) |
| CommunicationStyle.AnalyzePoliteness | analyzer/communication-style.ts:23-33 | polite iff polite markers > 0.1 per message, whatever the imperatives; blunt iff not polite and imperatives > 0.3; direct iff imperatives in (0.1, 0.3]; neutral iff both rates ≤ 0.1; the default `neutral` is returned exactly when polite and imperative rates are both ≤ 0.1 (compiled copy: dist/analyzer/communication-style.js:19-32) |
| CommunicationStyle.AnalyzeEmotion | analyzer/communication-style.ts:35-46 | the sarcasm cue forces `sarcastic`; otherwise, with score = lexicon score + positive emoji − negative emoji, enthusiastic iff 2·score > N, positive iff 0 < 2·score ≤ N, neutral iff score = 0, negative iff −N ≤ 2·score < 0, frustrated iff 2·score < −N; `mixed` is never produced; frustrated exactly when there is no sarcasm cue and the adjusted score is below −N/2 (compiled copy: dist/analyzer/communication-style.js:33-49) |
| CommunicationStyle.AnalyzeConciseness | analyzer/communication-style.ts:48-54 | concise iff the mean sentence length is < 10 tokens, verbose iff > 20, balanced otherwise; a text without sentences is concise; `detailed` is never produced |
| CommunicationStyle.AnalyzeEnergy | analyzer/communication-style.ts:56-65 | high-energy iff exclamations > 1 or capital words > 0.1 per message; flat iff exclamations < 0.1 and capital words < 0.02; normal otherwise; never flat with zero messages |
| CommunicationStyle.FormalityBySlang | dist/analyzer/communication-style.js:10-17 | slang above 0.2 gives slang-heavy whatever the contraction count; fewer contractions never make a formal text less formal |
| CommunicationStyle.PolitenessNeutralBand | analyzer/communication-style.ts:29-32 | polite markers above 0.1 per message give `polite` for every imperative count |
| CommunicationStyle.EmotionMonotone | analyzer/communication-style.ts:36-45 | without sarcasm, a higher lexicon score never gives a lower emotion on frustrated < negative < neutral < positive < enthusiastic |
| CommunicationStyle.ConcisenessByMean | dist/analyzer/communication-style.js:50-57 | two texts with the same mean sentence length get the same conciseness |
| CommunicationStyle.HighEnergyOverFlat | dist/analyzer/communication-style.js:64-67 | many capital words give high-energy even with no exclamation mark |
| PersonalityTraits.AnalyzeHumor | analyzer/personality-traits.ts:10-19 | the sarcasm cue forces `sarcastic` at any humor rate; otherwise heavy above 0.3, moderate in (0.2, 0.3], subtle in (0.1, 0.2], none at or below 0.1; `playful` is never produced |
| PersonalityTraits.AnalyzeTechnicality | analyzer/personality-traits.ts:21-30 | expert above 0.1 technical terms per message, advanced in (0.05, 0.1], intermediate in (0.02, 0.05], basic in (0.01, 0.02], non-technical iff at or below 0.01 |
| PersonalityTraits.TechnicalityMonotone | analyzer/personality-traits.ts:25-29 | for a fixed N, more technical terms never give a lower technicality level |
| PersonalityTraits.AnalyzeEmpathy | analyzer/personality-traits.ts:32-40 | very-high above 0.15, high in (0.1, 0.15], low below 0.05, moderate iff 0.05 ≤ rate ≤ 0.1; no messages and no cues give moderate |
| PersonalityTraits.AnalyzeConfidence | analyzer/personality-traits.ts:42-52 | with N ≥ 1: assertive iff confident cues > 2·uncertain cues, confident iff uncertain < confident ≤ 2·uncertain, tentative iff uncertain > 2·confident, moderate otherwise (both zero is moderate); with N = 0 always moderate |
| PersonalityTraits.ConfidenceByCounts | analyzer/personality-traits.ts:45-51 | the confidence label depends only on the two counts, not on N (N ≥ 1) |
| PersonalityTraits.RatePairComparisons | analyzer/personality-traits.ts:48-50 | JavaScript comparisons of two rates over one total are the comparisons of the counts; over zero messages none holds |
| CommunicationPatterns.AnalyzeQuestionStyle | analyzer/communication-patterns.ts:12-20 | clarifying iff question marks > 0.3 per message, whatever the cues; then rhetorical, then indirect; direct iff no cue applies, so no `?` and no cue gives direct |
| CommunicationPatterns.AnalyzeGreetingStyle | analyzer/communication-patterns.ts:22-27 | a formal greeting cue wins over warm and generic cues; warm wins over a generic greeting at the start; `minimal` only when no greeting starts the text; `none` is never produced |
| CommunicationPatterns.GoodMorningIsFormal | analyzer/communication-patterns.ts:23-24 | a text starting with "good morning" in any case is formal |
| CommunicationPatterns.AnalyzeClosingStyle | analyzer/communication-patterns.ts:29-34 | formal closing cue wins over warm, warm over generic; abrupt iff no closing cue |
| CommunicationPatterns.AnalyzeResponsePattern | analyzer/communication-patterns.ts:36-43 | spontaneous iff length variation > 0.8, deliberate iff < 0.3, otherwise immediate below a mean of 20 UTF-16 code units and thoughtful from 20; messages that are all empty (or none at all) give immediate; messages all of the same positive length in code units give deliberate |
| CommunicationPatterns.SingleMessageIsDeliberate | analyzer/communication-patterns.ts:37-40 | a single non-empty message is deliberate (its deviation is 0) |
| CommunicationPatterns.AllEmptyMessages | analyzer/utils.ts:116-120 | empty messages, or none at all, have mean length 0 |
| CommunicationPatterns.ConstantLengthsDeliberate | analyzer/communication-patterns.ts:37-40 | messages all of the same positive length have a variation below 0.3 and not above 0.8 |
| CommunicationPatterns.SurrogatePairsCountTwice | analyzer/utils.ts:117 | four characters above U+FFFF are 8 code units long, so next to an 8-letter message they make a deliberate pattern |
| LinguisticSophistication.AnalyzeVocabularyLevel | analyzer/linguistic-sophistication.ts:8-15 | with n words longer than two letters, u of them distinct: sophisticated iff 10u > 7n, advanced iff 6n < 10u ≤ 7n, basic iff 10u < 4n, intermediate iff n = 0 or 4n ≤ 10u ≤ 6n; words that never repeat are sophisticated |
| LinguisticSophistication.AnalyzeSentenceComplexity | analyzer/linguistic-sophistication.ts:17-27 | complex iff complex cues > 0.3 per sentence, simple iff < 0.1; between them varied iff token variance > (0.5·mean)², compound otherwise; `moderate` is never produced |
| LinguisticSophistication.NoSentenceComplexity | analyzer/linguistic-sophistication.ts:20-23 | a text with no sentence is complex when any complex cue matches (rate +Infinity), otherwise compound (rate NaN) |
| LinguisticSophistication.AnalyzeDiscourseMarkers | analyzer/linguistic-sophistication.ts:29-37 | excessive iff interjections > 0.2 per message, frequent in (0.1, 0.2], minimal below 0.05, moderate in [0.05, 0.1] |
| BehavioralPatterns.AnalyzeConflictStyle | dist/analyzer/behavioral-patterns.js:6-20 | competitive iff score < −0.3N and imperatives > 0.2 per message; avoidant iff not competitive and score < −0.1N, whatever the politeness; accommodating iff score ≥ −0.1N and polite markers > 0.15; collaborative otherwise; `compromising` is never produced |
| BehavioralPatterns.AnalyzeFeedbackStyle | dist/analyzer/behavioral-patterns.js:21-35 | direct iff imperatives > 0.3 per message, whatever else; then gentle iff polite markers > 0.2; harsh iff score < −0.2N; constructive otherwise |
| BehavioralPatterns.CompetitiveNeedsBoth | dist/analyzer/behavioral-patterns.js:12 | neither a very negative score alone nor many imperatives alone make a style competitive |
| Utils.AvgAtLeast | analyzer/utils.ts:12-14 | the mean of an empty list is 0; a non-empty list's mean is at least its lower bound |
| Utils.AvgAtMost | analyzer/utils.ts:12-14 | a non-empty list's mean is at most its upper bound |
| Utils.ZeroMean | analyzer/utils.ts:12-14 | non-negative values with mean 0 are all 0 |
| Utils.VarianceNonNegative | analyzer/utils.ts:16-20 | the variance (the square of `stdDev`) is never negative |
| Utils.ConstantVariance | analyzer/utils.ts:16-20 | equal values have variance 0, so `stdDev` is 0 |
| Utils.ConstantLengths | analyzer/utils.ts:116-120 | a non-empty list of equal values c has mean c and variance 0 |
| Utils.VocabularyDiversity | analyzer/utils.ts:23-27 | NaN without a word longer than two letters; otherwise a number in (0, 1], and exactly 1 when no word repeats; the compiled copy lies in (0, 1] as soon as one word is longer than two letters (compiled copy: dist/analyzer/utils.js:18-22) |
| Utils.WordsAreLowerWordChars | analyzer/utils.ts:24 | the counted words consist of lower-case word characters and are longer than two letters |
| Utils.AnalyzeSentences | analyzer/utils.ts:105-113 | the sentences are the non-blank pieces of the split; the mean is 0 with no sentence and at least 1 otherwise; the variance is non-negative; the compiled copy gives mean 0 with no non-blank sentence and at least 1 otherwise (compiled copy: dist/analyzer/utils.js:93-101) |
| Utils.AnalyzeMessageLengths | analyzer/utils.ts:116-121 | lengths are counted in UTF-16 code units (`msg.length`); the mean length is non-negative, 0 without messages; mean 0 implies no spread; equal lengths give that length and no spread |
| Utils.VariationIsSpreadOverMean | analyzer/utils.ts:119 | the squared comparison used for `stdDev / avgLength > c` (and `< c`) is the JavaScript comparison of the quotient, including the NaN of a zero mean |
| Utils.SpreadIsStdDevComparison | analyzer/linguistic-sophistication.ts:25 | the variance comparison equals `stdDevTokens > avgTokens * 0.5` |
| Utils.AvoidedWords | analyzer/utils.ts:84-89 | an order-preserving subsequence of the common words; a word is kept iff it does not occur in the lower-cased text or its whole-word count is below 1% of the total words |
| Utils.CalculateSentimentScore | analyzer/utils.ts:92-102 | the counter loop computes the lexicon score of the messages (+1 per positive token, −1 per negative token) |
| Utils.SentimentAdditive | analyzer/utils.ts:92-102 | the score of two concatenated message lists is the sum of their scores |
| Utils.SentimentBounded | analyzer/utils.ts:92-102 | the absolute score is at most the total token count |
| Utils.NoNegativeTokenScoresNonNegative | analyzer/utils.ts:96-99 | tokens with no negative word never give a negative score |
| Frequency.GetMostFrequentWords | analyzer/utils.ts:29-39 | the dictionary-filling loop returns `MostFrequentWords(text, limit)`: the keys of the count-sorted entries, cut to `limit` |
| Frequency.MostFrequentWordsSpec | analyzer/utils.ts:29-39 | at most `limit` distinct words, each longer than two letters and occurring in the text, in non-increasing count order |
| Frequency.MostFrequentWordsComplete | analyzer/utils.ts:35-38 | a word left out means the list is full and every listed word is at least as frequent |
| Frequency.CountMapSpec | analyzer/utils.ts:32-34 | the count dictionary has exactly the words as keys, each mapped to its number of occurrences |
| Frequency.SortByCount | analyzer/utils.ts:36 | the sort is a permutation of the entries in non-increasing count order |
| Frequency.TopEntriesKept | analyzer/utils.ts:36-37 | after sort and slice: at most k entries with distinct keys, all from the input, non-increasing |
| Frequency.TopEntriesDropped | analyzer/utils.ts:36-37 | an entry cut off by the slice is beaten or tied by all k kept entries |
| Frequency.ExtractSignaturePhrases | analyzer/utils.ts:42-60 | the phrase-counting loops return `SignaturePhrases(text)` |
| Frequency.CountSentencePhrases | analyzer/utils.ts:46-53 | the loop over the sentences leaves the dictionary that counts every bigram of every sentence, with its keys in first-insertion order |
| Frequency.CountPhrases | analyzer/utils.ts:49-52 | the inner loop adds the bigrams of one sentence to the count dictionary and its key order |
| Frequency.SignaturePhrasesSpec | analyzer/utils.ts:42-60 | at most 5 distinct phrases, each a bigram of the long sentences counted at least twice, in non-increasing count order; the compiled filter keeps only counts ≥ 2 and caps the result at 5 (compiled copy: dist/analyzer/utils.js:46-50) |
| Frequency.SignaturePhrasesComplete | analyzer/utils.ts:55-59 | a repeated phrase left out means 5 phrases were kept, each at least as frequent |
| Frequency.SignaturePhrasesFromLongSentences | analyzer/utils.ts:43-51 | every signature phrase is a bigram of a sentence whose trimmed length exceeds 10 UTF-16 code units |
| Quirks.DetectCommunicationQuirks | analyzer/utils.ts:63-81 | the pushing method returns `CommunicationQuirks(text)` |
| Quirks.CommunicationQuirksSpec | analyzer/utils.ts:63-81 | an order-preserving, duplicate-free subsequence of the six labels; each label present iff its test holds; heavy emoji usage needs more than 5 emoji; excessive exclamation implies letter repetition; the compiled copy lists the same six labels in the same test order, each present iff its test holds (compiled copy: dist/analyzer/utils.js:53-72) |
| Quirks.SelectedQuirkLabels | analyzer/utils.ts:67-78 | the quirk list is the six optional pushes in their source order |
| Personalization.AnalyzePersonalizationElements | analyzer/personalization.ts:7-19 | at most 5 distinct signature phrases; at most 10 distinct common words, all from the text; avoided words a subsequence of the 12 common English words, including every one the text lacks; quirks a duplicate-free subsequence of the quirk labels |
| Personalization.TotalWordsOnlyForAvoidedWords | analyzer/personalization.ts:7-18 | the word total affects only the avoided words, and a larger total never drops an avoided word |
| Patterns.SentimentListsDisjoint | dist/analyzer/patterns.js:40-41 | no word is both positive and negative |
| Patterns.CommonWordsShape | dist/analyzer/patterns.js:43 | exactly 12 distinct lower-case common words |
| Patterns.AstralTripleNoRepetition | dist/analyzer/patterns.js:65 | without the `u` flag the pattern compares UTF-16 code units, so a character above U+FFFF written three times is no letter repetition: its surrogate halves differ |
| Patterns.RepeatedUnitSuffix | dist/analyzer/patterns.js:65 | a repetition in the code units of a suffix is a repetition in the whole |
| Patterns.TripleUnits | dist/analyzer/patterns.js:65 | a character written three times is its code units three times over |
| Patterns.ExcessivePunctuationIsRepetition | dist/analyzer/patterns.js:61-65 | a run of three `!`, `?` or `.` is also a letter repetition |
| Patterns.TripleQuestionIsSarcasm | dist/analyzer/patterns.js:51 | text with `???` has the sarcasm cue |
| Patterns.GreetingOnlyAtStart | dist/analyzer/patterns.js:45 | the generic greeting is anchored at the start of the whole text, not at each line |
| Patterns.GreetingCueKeptByAppending | dist/analyzer/patterns.js:45 | appending text never removes a greeting at the start |
| DetailedMetrics.PerUnit | dist/analyzer/metrics.js:10 | count/units is finite and non-negative for units ≥ 1; NaN for 0/0 and +Infinity for c/0 with c > 0 |
| DetailedMetrics.CalculateDetailedMetrics | dist/analyzer/metrics.js:5-66 | with messages, every per-message rate is finite and non-negative; without them every one is NaN or +Infinity; the average sentence length equals `avgTokens`; the stored sentiment is the lexicon score without emoji; vocabulary diversity is NaN or in (0, 1] |
| DetailedMetrics.FormalityFromMetrics | dist/analyzer/metrics.js:10-11 | the stored slang and contraction rates decide formality exactly as the classifier does |
| DetailedMetrics.PolitenessFromMetrics | dist/analyzer/metrics.js:13-14 | the stored polite and imperative rates decide polite, blunt and neutral as the classifier does |
| DetailedMetrics.EnergyFromMetrics | dist/analyzer/metrics.js:16-17 | the stored exclamation and caps rates decide high-energy and flat exactly as the energy classifier does |
| DetailedMetrics.TraitsFromMetrics | dist/analyzer/metrics.js:31-32 | the stored technical and empathy rates decide the expert, non-technical, very-high and low labels |
| DetailedMetrics.PatternsFromMetrics | dist/analyzer/metrics.js:19-20 | the stored question and interjection rates decide clarifying, excessive and minimal |
| DetailedMetrics.LinguisticsFromMetrics | dist/analyzer/metrics.js:22 | the stored mean tokens and diversity decide concise, verbose, sophisticated and basic |
| DetailedMetrics.SentenceComplexityFromMetrics | dist/analyzer/metrics.js:23 | the complex-sentence rate is divided by the sentence count and decides complex and simple |
| DetailedMetrics.EmotionFromMetrics | dist/analyzer/metrics.js:15 | the stored score lacks the emoji adjustment of the emotion classifier; with balanced emoji it decides neutral and enthusiastic |
| DetailedMetrics.BehaviorFromMetrics | dist/analyzer/metrics.js:14-15 | the stored imperative rate and score decide direct feedback and competitive conflict |
| Analyzer.GenerateToneProfile | analyzer/index.ts:19-97 | interruption style is always `moderate`; emotion and humor are sarcastic together, exactly when the joined text has the sarcasm cue; the personalization bounds carry over; without messages all rates are undefined, with messages finite |
| Analyzer.EmptyCorpusProfile | analyzer/index.ts:20-21 | no messages give confidence `moderate`, response pattern `immediate` and NaN or infinite rates |
| Analyzer.StyleAgreesWithMetrics | analyzer/index.ts:25-56 | the profile's formality, politeness, energy and conciseness agree with its own metrics |
| Analyzer.TraitsAgreeWithMetrics | analyzer/index.ts:33-46 | technicality, question style and discourse markers agree with the stored rates |
| Analyzer.LinguisticsAgreeWithMetrics | analyzer/index.ts:44-53 | vocabulary level, sentence complexity and feedback style agree with the stored rates |
| Analyzer.VocabularyAgreesWithMetrics | analyzer/index.ts:44-45 | the vocabulary level is sophisticated iff the stored diversity exceeds 0.7 |
| Analyzer.ComplexityAgreesWithMetrics | analyzer/index.ts:46-47 | the sentence complexity is complex iff the stored complex-sentence rate exceeds 0.3 |
| Analyzer.FeedbackAgreesWithMetrics | analyzer/index.ts:52-53 | the feedback style is direct iff the stored imperative rate exceeds 0.3 |
| Validation.SafeParse | dist/analyzer/validation.js:52-84 | a field's issue is reported iff it is outside its enum or range; no issue iff all labels are admitted and all metrics in range |
| Validation.ValidateToneProfile | dist/analyzer/validation.js:90-96 | success iff no error iff every label in the superset enums and every metric in range; each error names a failing field |
| Validation.IsValidToneProfile | dist/analyzer/validation.js:86-88 | equals `validateToneProfile(p).success` |
| Validation.ValidateToneProfileTs | analyzer/validation.ts:123-129 | success iff every label in the narrow enums and every metric in range; each error names a failing field |
| Validation.IsValidToneProfileTs | analyzer/validation.ts:118-120 | equals `validateToneProfile(p).success` |
| Validation.IssuesNameFailingFields | analyzer/validation.ts:46-74 | the issue list names exactly the labels outside their enum and the metrics outside their range |
| Validation.ContractionRateAboveOneRejected | dist/analyzer/validation.js:23 | a contraction rate above 1 or +Infinity fails both validators |
| Validation.NarrowRejectsNeutralPoliteness | analyzer/validation.ts:27 | politeness `neutral` fails the TypeScript validator |
| Validation.NarrowRejectsNormalEnergy | analyzer/validation.ts:30 | energy `normal` fails the TypeScript validator |
| Validation.NarrowAdmittedEnergy | analyzer/validation.ts:30 | the narrow schema admits only the energies high-energy, moderate and low-energy |
| Validation.UnknownLabelRejected | dist/analyzer/validation.js:4 | politeness `unknown` fails the compiled validator and is reported as a politeness issue |
| Validation.NarrowWithinSuperset | dist/analyzer/validation.js:3-20 | every narrow label except technicality `semi-technical` and `highly-technical` is also a superset label |
| Validation.NarrowAdmittedWithinSuperset | analyzer/validation.ts:26-43 | a profile the narrow enums admit, with neither of those two technicalities, is admitted by the superset enums |
| Validation.SupersetRejectsTechnicality | analyzer/validation.ts:32 | `semi-technical` and `highly-technical` are not superset labels, so the compiled validator rejects them |
| Validation.CreateDefaultToneProfile | analyzer/validation.ts:132-189 | the lists and the metrics are the override if given, else the default |
| Validation.MergedLabel | analyzer/validation.ts:188 | each label is its override if given and the default otherwise; the compiled merge keeps every non-overridden default (compiled copy: dist/analyzer/validation.js:153) |
| Validation.NoOverridesGiveDefault | analyzer/validation.ts:132-189 | no overrides give the default profile |
| Validation.DefaultProfileValid | analyzer/validation.ts:132-189 | the default profile passes both validators; the compiled default profile passes the compiled validator (compiled copy: dist/analyzer/validation.js:98-154) |
| Validation.OverrideReportedAlone | dist/analyzer/validation.js:153 | overriding only the politeness with an unknown label makes that field the only issue |
| LlmGenerator.GenerateLLMToneProfile | dist/analyzer/llm-generator.js:71-147 | throws the invalid-profile error iff the superset validation fails; otherwise the text is the report lines joined by newlines |
| LlmGenerator.GenerateLLMToneProfileTs | analyzer/llm-generator.ts:113-200 | throws iff the narrow validation fails; otherwise the text is the report lines joined by newlines |
| LlmGenerator.CreateSection | analyzer/llm-generator.ts:38-42 | a section has two lines more than its items: the heading and the closing blank line |
| LlmGenerator.SectionHeading | analyzer/llm-generator.ts:38-42 | a section whose items are not headings has exactly its own `## title` heading |
| LlmGenerator.ReportHeadings | analyzer/llm-generator.ts:122-197 | the headings of the report are the eight section titles in the fixed order: Style, Traits, Patterns, Linguistic, Personalization, Behavioral, Metrics, Guidelines |
| LlmGenerator.ReportOutline | analyzer/llm-generator.ts:122-197 | the report has 54 lines with excessive discourse markers and 53 otherwise; each heading's line index; it ends with a blank line |
| LlmGenerator.GuidelinesNumbered | analyzer/llm-generator.ts:179-196 | a lead-in and then 9 guidelines numbered 1..9 with excessive discourse markers, 8 otherwise |
| LlmGenerator.GuidelinesTail | analyzer/llm-generator.ts:187-195 | with excessive markers guideline 7 is the filler, 8 the signature and 9 the quirks; otherwise 7 is the signature and 8 the quirks; the compiled numbering shifts by one in the same way (compiled copy: dist/analyzer/llm-generator.js:137-143) |
| LlmGenerator.GuidelineChoices | analyzer/llm-generator.ts:183-195 | "Avoid humor" iff humor is none; "Avoid signature phrases" iff there is no signature phrase; "Maintain clean communication style" iff there is no quirk |
| LlmGenerator.LabelLineRendered | analyzer/llm-generator.ts:123-172 | each categorical label is shown at a fixed line as `**Key**: value - description`, with the table entry or the fallback |
| LlmGenerator.UndescribedResponsePattern | dist/analyzer/llm-generator.js:290-292 | a response pattern without a description is shown with "No specific response pattern detected" |
| LlmGenerator.PersonalizationLines | analyzer/llm-generator.ts:156-160 | signature phrases and quirks are joined with commas, or "None detected" when empty; the common-words line shows at most the first five, in order; the compiled copy renders empty lists as "None detected" (compiled copy: dist/analyzer/llm-generator.js:110-112) |
| LlmGenerator.PersonalizationSectionLines | analyzer/llm-generator.ts:156-160 | the personalization section is its heading, the three items in order, and a blank line |
| LlmGenerator.DescriptionTablesMatchSuperset | analyzer/llm-generator.ts:52-104 | each description table describes exactly the labels of the superset enum, so the fallback is never used for a profile that passes |
| LlmGenerator.AcceptedProfileDescribed | dist/analyzer/llm-generator.js:73-77 | when the compiled renderer produces text, every label line carries its table description |
| LlmGenerator.RenderedWhenLabelsAdmitted | dist/analyzer/llm-generator.js:73-77 | with admitted labels, the compiled renderer produces text iff the metrics are in range |
| LlmGenerator.TsRendererRejectsNeutral | analyzer/llm-generator.ts:115-119 | politeness `neutral` makes the TypeScript renderer throw |
| LlmGenerator.TsRenderedEnergy | analyzer/llm-generator.ts:115-119 | the TypeScript renderer produces text only for energy high-energy, moderate or low-energy |
| LlmGenerator.NarrowTechnicalityUndescribed | analyzer/llm-generator.ts:225-231 | a technicality the narrow schema admits but the table lacks is shown with an empty description, and the compiled renderer rejects that profile |
| LlmGenerator.RenderersAgree | analyzer/llm-generator.ts:115-119 | apart from those two technicalities, a profile the TypeScript renderer accepts gets the same text from the compiled renderer |
| LlmGenerator.FormatterOnlyInMetrics | analyzer/llm-generator.ts:169-176 | the number formatter changes only the six metric lines |
| LlmGenerator.FormatPercent | analyzer/llm-generator.ts:30-31 | a percentage always ends with `%` |
| ProfileReport.GeneratedLabelsAdmitted | dist/analyzer/validation.js:3-20 | every label a generated profile carries is in the superset enums |
| ProfileReport.GeneratedProfileRendered | dist/analyzer/validation.js:69 | the compiled renderer reports on a generated profile iff its metrics are in range |
| ProfileReport.UndefinedRatesNotRendered | dist/analyzer/validation.js:23 | NaN or infinite rates make both renderers throw |
| ProfileReport.EmptyCorpusNotRendered | dist/analyzer/metrics.js:10 | a profile of no messages is rejected by both renderers |
| ProfileReport.GeneratedEnergy | analyzer/communication-style.ts:62-64 | a generated energy is high-energy, flat or normal |
| ProfileReport.TsRendererNeedsHighEnergy | analyzer/validation.ts:30 | the TypeScript renderer reports on a generated profile only if its energy is high-energy |
| ProfileReport.TsRendererClassifierEnergy | analyzer/validation.ts:30 | of the energies the classifier gives, the TypeScript renderer accepts only high-energy |
| ProfileReport.QuietCorpusNeutral | analyzer/communication-style.ts:32 | at most one polite marker and at most one imperative per ten messages give politeness `neutral` |
| ProfileReport.TsRendererRejectsQuietCorpus | analyzer/validation.ts:27 | on such a corpus the TypeScript renderer always throws |
| Text.CharUnits | analyzer/utils.ts:117 | a character is one code unit, itself, up to U+FFFF, and otherwise a high surrogate followed by a low surrogate |
| Text.CharUnitsDecode | analyzer/utils.ts:117 | a surrogate pair decodes back to its character |
| Text.CodeUnitsAppend | analyzer/utils.ts:117 | the code units of a concatenation are those of its parts |
| Text.CodeUnitsLength | analyzer/utils.ts:117 | `Utf16Length` counts the code units of the string |
| Text.Utf16LengthBounds | analyzer/utils.ts:117 | a string has between one and two code units per character, exactly one each iff no character lies above U+FFFF |
| Text.Split | analyzer/utils.ts:24 | a split always has at least one piece |
| Text.SplitPieces | analyzer/utils.ts:24 | no piece contains a separator, and each piece's characters come from the text |
| Text.DistinctSpec | analyzer/utils.ts:25 | the set of a list holds every element exactly once |
| Text.SelectedSpec | analyzer/utils.ts:64-80 | conditional pushes keep the label order, repeat nothing, and keep a label iff its test holds |
| Text.FilterIsSubsequence | analyzer/utils.ts:85 | `filter` keeps an order-preserving subsequence |
| Text.Take | analyzer/llm-generator.ts:158 | `slice(0, n)` is a prefix of at most n elements, the whole list when it is short |
| Frequency.OccurrencesPositive | analyzer/utils.ts:33 | a word is in the list iff it occurs a positive number of times |
| Frequency.CountStep | analyzer/utils.ts:32-34 | one counting step `wordCount[word] += 1`, starting from 0, turns the counts and key order of a prefix into those of the prefix extended by that word |
| Frequency.Entries | analyzer/utils.ts:35 | `Object.entries` lists each distinct word once, in first-insertion order, with its number of occurrences |
| Frequency.EntriesOfCounts | analyzer/utils.ts:35 | the entries read from the filled dictionary are exactly those entries |
| Frequency.EntriesFacts | analyzer/utils.ts:35 | the entries' keys are the distinct words, and each entry's count is that word's number of occurrences |
| Frequency.Insert | analyzer/utils.ts:36 | one insertion step of the sort adds exactly one entry and loses none |
| Frequency.InsertSorted | analyzer/utils.ts:36 | inserting into a list in non-increasing count order keeps that order |
| Frequency.SortKeys | analyzer/utils.ts:36 | sorting entries with distinct keys keeps the keys distinct |
| Frequency.FilterKeys | analyzer/utils.ts:56 | filtering entries with distinct keys keeps the keys distinct |
| Frequency.TopKeys | analyzer/utils.ts:35-38 | the words mapped from the top k entries are at most k, distinct, taken from the entries and in non-increasing count order |
| Frequency.EntryOf | analyzer/utils.ts:35 | every word of the list has its entry with its full count |
| Frequency.PhraseSentences | analyzer/utils.ts:43 | every sentence kept for phrase mining has a trimmed length above 10 UTF-16 code units |
| Frequency.AllBigramsFrom | analyzer/utils.ts:47-52 | every counted phrase is a bigram of one of the kept sentences |
| JsNumber.Times | analyzer/personality-traits.ts:48 | multiplying by a positive constant keeps a number finite iff it was, and scales its value |
| JsNumber.RateVersusFraction | analyzer/communication-style.ts:17 | for at least one message, `count / total` compared with `p / q` is `q·count` compared with `p·total`, in all three directions |
| JsNumber.ScaledRates | analyzer/personality-traits.ts:48 | over the same positive total, comparing one rate with k times another is comparing the counts |
| JsNumber.SquareComparison | analyzer/communication-patterns.ts:39-40 | with a positive mean, `stdDev / mean > c` iff the variance exceeds `(c·mean)²`, and likewise for `<` |
| LlmGenerator.Item | analyzer/llm-generator.ts:45-49 | every label item starts with the `**` of its bold key |
| LlmGenerator.StyleItems | analyzer/llm-generator.ts:123-129 | the style section lists five label items |
| LlmGenerator.TraitItems | analyzer/llm-generator.ts:132-137 | the traits section lists four label items |
| LlmGenerator.PatternItems | analyzer/llm-generator.ts:140-146 | the patterns section lists five label items |
| LlmGenerator.LinguisticItems | analyzer/llm-generator.ts:149-153 | the linguistic section lists three label items |
| LlmGenerator.PersonalizationItems | analyzer/llm-generator.ts:156-160 | the personalization section lists three items |
| LlmGenerator.BehaviorItems | analyzer/llm-generator.ts:163-166 | the behavioral section lists two label items |
| LlmGenerator.MetricItems | analyzer/llm-generator.ts:169-176 | the metrics section lists six `- ` bullet lines |
| LlmGenerator.SectionLengths | analyzer/llm-generator.ts:122-197 | the eight sections have 7, 6, 7, 5, 5, 4 and 8 lines, and the guidelines 12 with excessive discourse markers, 11 otherwise |
| LlmGenerator.UpperSectionHeadings | analyzer/llm-generator.ts:123-137 | the style and traits sections each have exactly their own heading |
| LlmGenerator.MiddleSectionHeadings | analyzer/llm-generator.ts:140-153 | the patterns and linguistic sections each have exactly their own heading |
| LlmGenerator.LowerSectionHeadings | analyzer/llm-generator.ts:156-166 | the personalization and behavioral sections each have exactly their own heading |
| LlmGenerator.TrailingSectionHeadings | analyzer/llm-generator.ts:169-196 | the metrics and guidelines sections each have exactly their own heading |
| LlmGenerator.StyleSectionLines | analyzer/llm-generator.ts:123-129 | the style section has 7 lines; lines 1 to 5 show formality, politeness, emotion, conciseness and energy in that order, each with its description or fallback |
| LlmGenerator.TraitsSectionLines | analyzer/llm-generator.ts:132-137 | the traits section has 6 lines; lines 1 to 4 show humor, technicality, empathy and confidence in that order |
| LlmGenerator.PatternsSectionLines | analyzer/llm-generator.ts:140-143 | the patterns section has 7 lines; lines 1 to 3 show question, greeting and closing style |
| LlmGenerator.PatternsSectionTail | analyzer/llm-generator.ts:144-145 | lines 4 and 5 of the patterns section show interruption style and response pattern |
| LlmGenerator.LinguisticSectionLines | analyzer/llm-generator.ts:149-153 | the linguistic section has 5 lines; lines 1 to 3 show vocabulary level, sentence complexity and discourse markers |
| LlmGenerator.BehaviorSectionLines | analyzer/llm-generator.ts:163-166 | the behavioral section has 4 lines; lines 1 and 2 show conflict style, then feedback style |
| LlmGenerator.EmptyTechnicalityLine | analyzer/llm-generator.ts:134 | whatever the tables, a technicality whose table entry is empty is shown with an empty description |
| LlmGenerator.GuidelinesNoHeading | analyzer/llm-generator.ts:180-195 | no guideline line starts with `#` |
| LlmGenerator.ReportSections | analyzer/llm-generator.ts:122-197 | the report lines are the eight sections one after the other, at fixed offsets |
| LlmGenerator.StyleLabelLine | analyzer/llm-generator.ts:123-129 | each style label is shown at its line with its description or the fallback |
| LlmGenerator.TraitsLabelLine | analyzer/llm-generator.ts:132-137 | each trait label is shown at its line with its description or the fallback |
| LlmGenerator.PatternsLabelLine | analyzer/llm-generator.ts:140-146 | each pattern label is shown at its line with its description or the fallback |
| LlmGenerator.LinguisticLabelLine | analyzer/llm-generator.ts:149-153 | each linguistic label is shown at its line with its description or the fallback |
| LlmGenerator.BehaviorLabelLine | analyzer/llm-generator.ts:163-166 | each behavioral label is shown at its line with its description or the fallback |
| LlmGenerator.TableDescribes | analyzer/llm-generator.ts:45-49 | a table whose descriptions are all non-empty describes exactly its own keys |
| LlmGenerator.TechnicalityUndescribed | analyzer/llm-generator.ts:225-231 | `semi-technical` and `highly-technical` have no entry in the technicality table |
| LlmGenerator.UndescribedTechnicalityLine | analyzer/llm-generator.ts:134 | those two technicalities are shown with an empty description |
| Patterns.TripleIsRepetition | dist/analyzer/patterns.js:65 | any character below U+10000, other than a line terminator, written three times in a row makes a letter repetition |
| Quirks.QuirkTests | analyzer/utils.ts:67-78 | there is one test per quirk label |
| Quirks.SelectedPrefix | analyzer/utils.ts:67-78 | selecting over the first k labels is selecting over the first k − 1 and then the k-th push |
| Quirks.SelectedSix | analyzer/utils.ts:67-78 | selecting from any six labels is the six optional pushes in order |
| DetailedMetrics.ComplexityFromRate | analyzer/linguistic-sophistication.ts:17-27 | the complexity label is complex iff the complex-sentence rate exceeds 0.3, simple iff it is below 0.1, zero sentences included |
| DetailedMetrics.BehaviorFromRates | dist/analyzer/behavioral-patterns.js:6-35 | feedback is direct iff the imperative rate exceeds 0.3; conflict is competitive iff the word score is below −0.3 per message and the imperative rate exceeds 0.2 |
| DetailedMetrics.TraitsFromRates | analyzer/personality-traits.ts:21-40 | technicality is expert iff its rate exceeds 0.1 and non-technical iff it is at most 0.01; empathy is very-high iff its rate exceeds 0.15 and low iff it is below 0.05 |
| DetailedMetrics.QuestionStyleFromRate | analyzer/communication-patterns.ts:12-20 | question style is clarifying iff the question rate exceeds 0.3 |
| DetailedMetrics.DiscourseMarkersFromRate | analyzer/linguistic-sophistication.ts:29-37 | discourse markers are excessive iff the interjection rate exceeds 0.2 and minimal iff it is below 0.05 |
| DetailedMetrics.EmotionFromScore | analyzer/communication-style.ts:35-46 | the emotion score is the word score plus the emoji balance; with balanced emoji, neutral iff the word score is 0 and enthusiastic iff it exceeds N/2 |
| Text.DropWhile | analyzer/utils.ts:48 | dropping leading characters keeps a suffix whose first character fails the test, having dropped only characters that pass it |
| Text.TrimEnd | analyzer/utils.ts:43 | trimming at the end keeps a prefix that does not end with white space |
| Text.ToLower | analyzer/utils.ts:24 | lower-casing keeps the length, leaves no ASCII capital, and changes a character exactly when it is an ASCII capital |
| Text.ToLowerIdempotent | analyzer/utils.ts:24 | lower-casing twice is lower-casing once |
| Text.ContainsPrefix | analyzer/utils.ts:86 | a text that includes a string includes each prefix of it |
| Text.ContainsInPrefix | analyzer/utils.ts:86 | a text that includes a string still includes it after anything is appended |
| Text.Filter | analyzer/utils.ts:85 | the filtered list holds the elements that pass, and only those |
| Text.FilterKeepsNoDuplicates | analyzer/utils.ts:85 | filtering a duplicate-free list keeps it duplicate-free |
| Text.SubsequenceLength | analyzer/utils.ts:85 | a subsequence is no longer than its list |
| Text.SelectedSteps | analyzer/utils.ts:64-80 | the selection of all labels is the selection of all but the last plus the last one's optional push |
| Utils.SumAtLeast | analyzer/utils.ts:13 | values all at least lo sum to at least n·lo |
| Utils.SumAtMost | analyzer/utils.ts:13 | values all at most hi sum to at most n·hi |
| Utils.SumZero | analyzer/utils.ts:13 | non-negative values that sum to 0 are all 0 |
| Utils.Words | analyzer/utils.ts:24 | every word kept is longer than two characters |
| Utils.DistinctOfNoDuplicates | analyzer/utils.ts:25 | a list without repeats is its own set, in order |
| Utils.UnitFraction | analyzer/utils.ts:26 | u/n lies in (0, 1] when 1 ≤ u ≤ n, and is 1 when u = n |
| Utils.Sentences | analyzer/utils.ts:106 | every sentence kept is non-blank after trimming |
| Utils.TokenCounts | analyzer/utils.ts:107 | one token count per sentence, each at least 1 |
| Utils.TokensSentimentBounded | analyzer/utils.ts:96-99 | the score of n tokens lies between −n and n |
| Validation.LabelIssues | analyzer/validation.ts:77-115 | the label issues name exactly the listed fields whose label is outside the enum |
| Validation.MetricIssues | analyzer/validation.ts:46-74 | the metric issues name exactly the listed fields whose value is outside its range |
| Validation.AllLabelFieldsListed | analyzer/validation.ts:77-115 | the schema checks every label field |
| Validation.AllMetricFieldsListed | analyzer/validation.ts:46-74 | the schema checks every metric field |
| Validation.DefaultMetricInRange | analyzer/validation.ts:157-185 | every default metric lies in its range |
| Validation.DefaultLabelAdmitted | analyzer/validation.ts:133-156 | every default label is admitted by both validators |
| JsNumber.RateComparisons | analyzer/communication-style.ts:17 | `count / total > p/q` in JavaScript holds iff `q·count > p·total` (any count over zero counts as above), and likewise for `<` |

## Left out

- The regular-expression engine. Every count the source takes with a regular expression other than the simple structural cues is an abstract `Detectors` function. The word-list expressions are built with `\b` inside template literals, which is a backspace character, so the model claims nothing about which words they match.
- `toFixed` is a parameter of the renderer: the model does not compute decimal expansions, so the metric lines are uninterpreted text.
- `Math.sqrt`: `stdDev` is not computed. The model keeps the variance, and every comparison of a standard deviation is stated on the squared, non-negative sides. The metrics record therefore holds `tokenVariance` where the source holds `stdDevTokens`.
- Floating point: rates are exact rationals, with NaN and the infinities kept explicitly. Rounding near a threshold is not modelled.
- `console.warn` before the renderer throws: a side effect only.
- Object keys inherited from `Object.prototype`: description lookups read only the table's own entries.
- CountMapSpec (Frequency): the dictionary is a plain object, so the lower-cased words `constructor` and `__proto__` first read an inherited value. For `constructor` the count becomes a string and the sort comparison gives NaN; `__proto__` never becomes an own entry. The model counts these two words like any other.
- GetMostFrequentWords (Frequency): for the same reason its result is not the source's when the text holds the word `constructor` or `__proto__`.
- MostFrequentWordsComplete (Frequency): states the ordering of the modelled dictionary. In the source `__proto__` is never listed even when the list is not full, and `constructor` is ranked arbitrarily.
- ToLower (Text): maps the ASCII capitals only. `toLowerCase` also maps other capitals (`Ä`, Greek and Cyrillic letters, the KELVIN SIGN U+212A to `k`), so every word-based count differs from the source on such text.
- CountMatches (Utils): the detector stands for `text.match(re)`, and the count is the length of what it returns. Which substrings an expression matches is not modelled (see the regular-expression engine above).
- `createDefaultToneProfile` with an override whose value is `undefined`: an override is either absent or a value.
- The validators' checks that lists are lists of strings and that numbers are numbers: the Dafny types guarantee both.
- Frequency.SortByCount: ties keep first-insertion order, a stable sort over the dictionary's insertion order. JavaScript lists integer-like keys first, which the model does not reproduce. Only non-increasing counts are stated.
- LlmGenerator.GuidelinesTail: the text of the filler guideline is fixed by position only. The lemma states where it sits, not that no other guideline has that text.
- Utils.AvoidedWords: the whole-word count comes from the abstract `wholeWord` detector; the lemma does not relate it to the lower-cased `includes` test.
- `analyzer/tone-profile.d.ts` and `analyzer/types.ts` are declarations: their unions are the datatypes of `tone_profile.dfy`.
- The browser, popup, storage and network files (`content.js`, `popup.js`, `popup.bundle.js`, `gemini.js`, `analyzer/analyze-chat.js`), the build configuration and the demo drivers are not part of this model.

## Findings

| source | as written | input that shows it | evidently intended | confidence | as-written member | corrected member |
|---|---|---|---|---|---|---|
| analyzer/validation.ts:27 | The TypeScript validator admits only the politeness labels polite, direct and blunt, and only three energies (line 30). The politeness classifier returns `neutral` by default (analyzer/communication-style.ts:32), and the energy classifier returns `flat` or `normal` (analyzer/communication-style.ts:62-64). So the TypeScript renderer throws on the profiles the analyzer builds. | Any corpus in which at most one message in ten has a polite marker and at most one in ten has an imperative. Example: ten messages "ok" with no cues. | The renderer accepts every label the classifiers return, as the compiled validator with the superset enums does (dist/analyzer/validation.js:4,7). | not executed | ProfileReport.TsRendererRejectsQuietCorpus | ProfileReport.GeneratedProfileRendered |
