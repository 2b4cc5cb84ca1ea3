/** `generateLLMToneProfile`: the markdown report of a tone profile that is
    handed to a language model, with one section per group of labels, the
    key metrics and numbered adaptation guidelines.

    The TypeScript renderer and its compiled copy build the same lines; they
    differ only in the validator they call first (the narrow TypeScript one,
    or the compiled superset one). `toFixed(1)` is a parameter: the model
    does not compute decimal expansions. */
module LlmGenerator {
  import opened JsNumber
  import opened ToneProfileTypes
  import opened Text
  import opened Validation

  /** How a call ends: the markdown text, or the message of the `Error` it
      throws. */
  datatype Generation = Generated(text: string) | Thrown(message: string)

  const INVALID_PROFILE_MESSAGE: string := "Cannot generate LLM profile: Invalid tone profile data"

  // ----- formatting helpers -----

  /** `formatPercent(value)`: the value times 100 with one decimal, then `%`. */
  function FormatPercent(toFixed: Num -> string, value: Num): (r: string)
    ensures |r| >= 1 && r[|r| - 1] == '%'
  {
    toFixed(Times(value, 100.0)) + "%"
  }

  /** `formatNumber(value)`: the value with one decimal. */
  function FormatNumber(toFixed: Num -> string, value: Num): string {
    toFixed(value)
  }

  /** `createSection(title, items)`: a level-two heading, the items, and a
      blank line. */
  function CreateSection(title: string, items: seq<string>): (r: seq<string>)
    ensures |r| == |items| + 2
  {
    ["## " + title] + items + [""]
  }

  /** A description table: the entries of an object literal, in order. */
  type DescriptionMap = seq<(string, string)>

  /** `table[key]`, with a missing key read as the empty string: the two
      are alike to the `||` every lookup is followed by. */
  function Lookup(table: DescriptionMap, key: string): string {
    if table == [] then ""
    else if table[0].0 == key then table[0].1
    else Lookup(table[1..], key)
  }

  /** `table[value] || fallback`: a missing key and an empty description
      both give the fallback. */
  function Describe(table: DescriptionMap, value: string, fallback: string): string {
    if Lookup(table, value) != "" then Lookup(table, value) else fallback
  }

  /** One described label: `**key**: value - description`. */
  function Item(key: string, value: string, description: string): (r: string)
    ensures |r| >= 2 && r[0] == '*'
  {
    "**" + key + "**: " + value + " - " + description
  }

  /** `createKeyValue(key, value, descriptions)`. */
  function CreateKeyValue(key: string, value: string, descriptions: DescriptionMap): string {
    Item(key, value, Describe(descriptions, value, "No description available"))
  }

  /** The `get…Description` helpers: the table entry, or the empty string. */
  function GetDescription(table: DescriptionMap, value: string): string {
    Describe(table, value, "")
  }

  /** `getResponsePatternDescription`, whose fallback is a sentence. */
  function GetResponsePatternDescription(descriptions: DescriptionMap, value: string): string {
    Describe(descriptions, value, "No specific response pattern detected")
  }

  // ----- description tables -----

  const INTERRUPTION_STYLE_DESCRIPTIONS: DescriptionMap := [
    ("frequent", "Interrupts often during conversation"),
    ("moderate", "Occasionally interrupts, but not disruptive"),
    ("rare", "Rarely interrupts, generally waits for others to finish"),
    ("never", "Never interrupts, always waits for others to finish speaking")]

  const RESPONSE_PATTERN_DESCRIPTIONS: DescriptionMap := [
    ("quick", "Responds rapidly, often without delay"),
    ("deliberate", "Takes time to consider before responding"),
    ("thoughtful", "Gives well-considered, reflective responses"),
    ("reactive", "Responds directly to the previous message"),
    ("spontaneous", "Responds in an unplanned, impulsive manner"),
    ("immediate", "Replies instantly, with little to no pause")]

  const FORMALITY_DESCRIPTIONS: DescriptionMap := [
    ("formal", "Professional language, no contractions, formal vocabulary"),
    ("semi-formal", "Some contractions, mixed formal/casual vocabulary"),
    ("casual", "Frequent contractions, everyday language, some slang"),
    ("slang-heavy", "Heavy use of slang, internet abbreviations, informal expressions")]

  const POLITENESS_DESCRIPTIONS: DescriptionMap := [
    ("polite", "Frequent use of \"please\", \"thank you\", \"could you\", apologetic language"),
    ("direct", "Straightforward communication, minimal politeness markers"),
    ("blunt", "Very direct, potentially harsh, minimal softening language"),
    ("neutral", "Neither overtly polite nor impolite; balanced tone")]

  const EMOTION_DESCRIPTIONS: DescriptionMap := [
    ("positive", "Upbeat, optimistic language and sentiment"),
    ("negative", "Pessimistic, critical, or frustrated tone"),
    ("neutral", "Balanced emotional expression"),
    ("mixed", "Combination of different emotional tones"),
    ("sarcastic", "Ironic, mocking, or satirical emotional tone"),
    ("enthusiastic", "Excited, passionate, and energetic emotional tone"),
    ("frustrated", "Impatient, annoyed, or dissatisfied emotional tone")]

  const CONCISENESS_DESCRIPTIONS: DescriptionMap := [
    ("concise", "Short, to-the-point messages"),
    ("detailed", "Thorough explanations with additional context"),
    ("verbose", "Lengthy, detailed communications with extensive explanations"),
    ("balanced", "Balanced between concise and detailed")]

  const ENERGY_DESCRIPTIONS: DescriptionMap := [
    ("high-energy", "Lots of exclamations, emojis, caps"),
    ("moderate", "Balanced energy level"),
    ("low-energy", "Calm, measured, minimal emphasis"),
    ("flat", "Monotone, lacking energy"),
    ("normal", "Standard, expected energy level")]

  const HUMOR_DESCRIPTIONS: DescriptionMap := [
    ("none", "No humor detected"),
    ("subtle", "Occasional, understated humor"),
    ("moderate", "Regular but balanced use of humor"),
    ("sarcastic", "Ironic, mocking, or satirical humor"),
    ("playful", "Light-hearted and fun humor"),
    ("heavy", "Frequent, intense use of humor")]

  const TECHNICALITY_DESCRIPTIONS: DescriptionMap := [
    ("expert", "Expert-level technical language and concepts"),
    ("advanced", "Advanced technical terminology and explanations"),
    ("intermediate", "Intermediate technical terms, some explanations"),
    ("basic", "Basic technical terms with explanations"),
    ("non-technical", "No technical terminology used")]

  const EMPATHY_DESCRIPTIONS: DescriptionMap := [
    ("low", "Minimal emotional consideration for others"),
    ("moderate", "Balanced emotional consideration"),
    ("high", "High level of emotional consideration and understanding"),
    ("very-high", "Exceptionally empathetic and understanding")]

  const CONFIDENCE_DESCRIPTIONS: DescriptionMap := [
    ("low", "Hesitant, uncertain language"),
    ("moderate", "Balanced confidence"),
    ("high", "Assertive, self-assured language"),
    ("overconfident", "Overly assertive, potentially dismissive of others"),
    ("assertive", "Confident and direct, but not overbearing"),
    ("confident", "Self-assured and positive"),
    ("tentative", "Cautious, hesitant, or unsure")]

  const QUESTION_STYLE_DESCRIPTIONS: DescriptionMap := [
    ("rhetorical", "Questions used for effect rather than to get information"),
    ("clarifying", "Questions that seek to understand better"),
    ("probing", "In-depth questions that explore a topic"),
    ("leading", "Questions that suggest a particular answer"),
    ("direct", "Straightforward, explicit questions"),
    ("indirect", "Subtle, implied questions")]

  const GREETING_STYLE_DESCRIPTIONS: DescriptionMap := [
    ("formal", "Professional, traditional greetings"),
    ("warm", "Friendly, welcoming greetings"),
    ("casual", "Informal, relaxed greetings"),
    ("none", "No greeting, gets straight to the point"),
    ("minimal", "Minimal or token greeting")]

  const CLOSING_STYLE_DESCRIPTIONS: DescriptionMap := [
    ("formal", "Professional sign-offs"),
    ("warm", "Friendly, personal closings"),
    ("abrupt", "Ends messages suddenly"),
    ("none", "No closing, ends with the last point"),
    ("casual", "Informal, relaxed closing")]

  const VOCABULARY_LEVEL_DESCRIPTIONS: DescriptionMap := [
    ("basic", "Simple, everyday vocabulary"),
    ("intermediate", "Good range of vocabulary"),
    ("advanced", "Sophisticated word choice"),
    ("sophisticated", "Sophisticated vocabulary in short, punchy sentences")]

  const SENTENCE_COMPLEXITY_DESCRIPTIONS: DescriptionMap := [
    ("simple", "Short, straightforward sentences"),
    ("moderate", "Mix of simple and complex sentences"),
    ("complex", "Longer, more complex sentence structures"),
    ("varied", "Wide range of sentence structures"),
    ("compound", "Sentences with two or more independent clauses")]

  const DISCOURSE_MARKERS_DESCRIPTIONS: DescriptionMap := [
    ("minimal", "Few transition words or phrases"),
    ("moderate", "Appropriate use of transitions"),
    ("excessive", "Overuse of transition words and phrases"),
    ("frequent", "Frequent use of discourse markers")]

  const CONFLICT_STYLE_DESCRIPTIONS: DescriptionMap := [
    ("avoidant", "Avoids direct confrontation"),
    ("accommodating", "Seeks to please others in conflict"),
    ("competitive", "Seeks to win in conflict situations"),
    ("collaborative", "Works with others to find solutions"),
    ("compromising", "Seeks middle ground in conflicts")]

  const FEEDBACK_STYLE_DESCRIPTIONS: DescriptionMap := [
    ("direct", "Straightforward, to-the-point feedback"),
    ("constructive", "Balanced feedback with suggestions"),
    ("sandwich", "Negative feedback between positive comments"),
    ("indirect", "Subtle, implied feedback"),
    ("gentle", "Soft, kind, and encouraging feedback"),
    ("harsh", "Severe, critical, or blunt feedback")]

  /** The table each categorical key is described from. */
  function DescriptionsOf(f: LabelField): DescriptionMap {
    match f
    case formality => FORMALITY_DESCRIPTIONS
    case politeness => POLITENESS_DESCRIPTIONS
    case emotion => EMOTION_DESCRIPTIONS
    case conciseness => CONCISENESS_DESCRIPTIONS
    case energy => ENERGY_DESCRIPTIONS
    case humor => HUMOR_DESCRIPTIONS
    case technicality => TECHNICALITY_DESCRIPTIONS
    case empathy => EMPATHY_DESCRIPTIONS
    case confidence => CONFIDENCE_DESCRIPTIONS
    case questionStyle => QUESTION_STYLE_DESCRIPTIONS
    case greetingStyle => GREETING_STYLE_DESCRIPTIONS
    case closingStyle => CLOSING_STYLE_DESCRIPTIONS
    case interruptionStyle => INTERRUPTION_STYLE_DESCRIPTIONS
    case responsePattern => RESPONSE_PATTERN_DESCRIPTIONS
    case vocabularyLevel => VOCABULARY_LEVEL_DESCRIPTIONS
    case sentenceComplexity => SENTENCE_COMPLEXITY_DESCRIPTIONS
    case discourseMarkers => DISCOURSE_MARKERS_DESCRIPTIONS
    case conflictStyle => CONFLICT_STYLE_DESCRIPTIONS
    case feedbackStyle => FEEDBACK_STYLE_DESCRIPTIONS
  }

  // ----- the report -----

  /** Items that are described labels: each starts with `**`. */
  predicate LabelItems(items: seq<string>) {
    forall i :: 0 <= i < |items| ==> |items[i]| >= 2 && items[i][0] == '*'
  }

  function StyleItems(p: ToneProfile, tables: LabelField -> DescriptionMap): (r: seq<string>)
    ensures |r| == 5 && LabelItems(r)
  {
    [ CreateKeyValue("Formality", p.formality, tables(formality)),
      CreateKeyValue("Politeness", p.politeness, tables(politeness)),
      CreateKeyValue("Emotional Tone", p.emotion, tables(emotion)),
      CreateKeyValue("Conciseness", p.conciseness, tables(conciseness)),
      CreateKeyValue("Energy Level", p.energy, tables(energy))]
  }

  function TraitItems(p: ToneProfile, tables: LabelField -> DescriptionMap): (r: seq<string>)
    ensures |r| == 4 && LabelItems(r)
  {
    [ Item("Humor Style", p.humor, GetDescription(tables(humor), p.humor)),
      Item("Technical Level", p.technicality, GetDescription(tables(technicality), p.technicality)),
      Item("Empathy Level", p.empathy, GetDescription(tables(empathy), p.empathy)),
      Item("Confidence Level", p.confidence, GetDescription(tables(confidence), p.confidence))]
  }

  function PatternItems(p: ToneProfile, tables: LabelField -> DescriptionMap): (r: seq<string>)
    ensures |r| == 5 && LabelItems(r)
  {
    [ Item("Question Style", p.questionStyle, GetDescription(tables(questionStyle), p.questionStyle)),
      Item("Greeting Style", p.greetingStyle, GetDescription(tables(greetingStyle), p.greetingStyle)),
      Item("Closing Style", p.closingStyle, GetDescription(tables(closingStyle), p.closingStyle)),
      Item("Interruption Style", p.interruptionStyle, GetDescription(tables(interruptionStyle), p.interruptionStyle)),
      Item("Response Pattern", p.responsePattern, GetResponsePatternDescription(tables(responsePattern), p.responsePattern))]
  }

  function LinguisticItems(p: ToneProfile, tables: LabelField -> DescriptionMap): (r: seq<string>)
    ensures |r| == 3 && LabelItems(r)
  {
    [ Item("Vocabulary Level", p.vocabularyLevel, GetDescription(tables(vocabularyLevel), p.vocabularyLevel)),
      Item("Sentence Complexity", p.sentenceComplexity,
        GetDescription(tables(sentenceComplexity), p.sentenceComplexity)),
      Item("Discourse Markers", p.discourseMarkers, GetDescription(tables(discourseMarkers), p.discourseMarkers))]
  }

  /** A list joined with commas, or `None detected` when it is empty. */
  function ListOrNone(items: seq<string>): string {
    if |items| > 0 then Join(items, ", ") else "None detected"
  }

  function PersonalizationItems(p: ToneProfile): (r: seq<string>)
    ensures |r| == 3 && LabelItems(r)
  {
    [ "**Signature Phrases**: " + ListOrNone(p.signaturePhrases),
      "**Common Words**: " + Join(Take(p.commonWords, 5), ", "),
      "**Communication Quirks**: " + ListOrNone(p.communicationQuirks)]
  }

  function BehaviorItems(p: ToneProfile, tables: LabelField -> DescriptionMap): (r: seq<string>)
    ensures |r| == 2 && LabelItems(r)
  {
    [ Item("Conflict Style", p.conflictStyle, GetDescription(tables(conflictStyle), p.conflictStyle)),
      Item("Feedback Style", p.feedbackStyle, GetDescription(tables(feedbackStyle), p.feedbackStyle))]
  }

  /** The key metrics, each line starting with `- `. */
  function MetricItems(p: ToneProfile, toFixed: Num -> string): (r: seq<string>)
    ensures |r| == 6 && forall i :: 0 <= i < |r| ==> |r[i]| >= 2 && r[i][..2] == "- "
  {
    [ "- Contraction Rate: " + FormatPercent(toFixed, p.metrics.contractionRate),
      "- Slang Usage: " + FormatPercent(toFixed, p.metrics.slangRate),
      "- Emoji Usage: " + FormatPercent(toFixed, p.metrics.emojiRate),
      "- Question Rate: " + FormatPercent(toFixed, p.metrics.questionRate),
      "- Vocabulary Diversity: " + FormatPercent(toFixed, p.metrics.vocabularyDiversity),
      "- Average Sentence Length: " + FormatNumber(toFixed, p.metrics.avgSentenceLength) + " words"]
  }

  function StyleSection(p: ToneProfile, tables: LabelField -> DescriptionMap): seq<string> {
    CreateSection("Communication Style Analysis", StyleItems(p, tables))
  }

  function TraitsSection(p: ToneProfile, tables: LabelField -> DescriptionMap): seq<string> {
    CreateSection("Personality Traits", TraitItems(p, tables))
  }

  function PatternsSection(p: ToneProfile, tables: LabelField -> DescriptionMap): seq<string> {
    CreateSection("Communication Patterns", PatternItems(p, tables))
  }

  function LinguisticSection(p: ToneProfile, tables: LabelField -> DescriptionMap): seq<string> {
    CreateSection("Linguistic Characteristics", LinguisticItems(p, tables))
  }

  function PersonalizationSection(p: ToneProfile): seq<string> {
    CreateSection("Personalization Elements", PersonalizationItems(p))
  }

  function BehaviorSection(p: ToneProfile, tables: LabelField -> DescriptionMap): seq<string> {
    CreateSection("Behavioral Patterns", BehaviorItems(p, tables))
  }

  function MetricsSection(p: ToneProfile, toFixed: Num -> string): seq<string> {
    CreateSection("Key Metrics", MetricItems(p, toFixed))
  }

  function SignatureAdvice(phrases: seq<string>): string {
    if |phrases| > 0 then "Incorporate signature phrases like \"" + phrases[0] + "\""
    else "Avoid signature phrases"
  }

  function QuirksAdvice(quirks: seq<string>): string {
    if |quirks| > 0 then "Include quirks: " + Join(quirks, ", ")
    else "Maintain clean communication style"
  }

  /** A guideline line `k. text`. */
  function Numbered(k: nat, text: string): (r: string)
    requires 1 <= k <= 9
    ensures |r| >= 3 && r[..3] == [Numeral(k), '.', ' '] && r[3..] == text
  {
    [Numeral(k), '.', ' '] + text
  }

  /** The lead-in line of the guidelines. It is written as two literals so
      that proofs see its opening words, which tell it from a heading,
      without unfolding the whole text. */
  const LEAD_IN: string := "When adapting messages " + "to match this person's style:"

  const FILLER_ADVICE: string := "Allow frequent use of fillers and transition markers"

  /** The items of the adaptation guidelines: a lead-in line, six fixed
      guidelines, the filler guideline when discourse markers are
      excessive, then the signature-phrase and quirk guidelines numbered
      after whatever precedes them. */
  function Guidelines(p: ToneProfile): seq<string> {
    var excessive := p.discourseMarkers == "excessive";
    [ LEAD_IN,
      Numbered(1, "Use " + p.formality + " language with " + p.politeness + " politeness"),
      Numbered(2, "Maintain " + p.emotion + " emotional tone and " + (if p.energy == "high-energy" then "high energy" else p.energy)),
      Numbered(3, "Keep responses " + p.conciseness + " in length"),
      Numbered(4, if p.humor == "none" then "Avoid humor" else "Use " + p.humor + " humor when appropriate"),
      Numbered(5, "Use " + (if p.vocabularyLevel == "sophisticated" then "sophisticated vocabulary in short, punchy sentences"
                            else p.vocabularyLevel)),
      Numbered(6, "Structure sentences with " + p.sentenceComplexity + " complexity")]
    + (if excessive then [Numbered(7, FILLER_ADVICE)] else [])
    + (if excessive then [Numbered(8, SignatureAdvice(p.signaturePhrases))] else [Numbered(7, SignatureAdvice(p.signaturePhrases))])
    + (if excessive then [Numbered(9, QuirksAdvice(p.communicationQuirks))] else [Numbered(8, QuirksAdvice(p.communicationQuirks))])
  }

  function GuidelinesSection(p: ToneProfile): seq<string> {
    CreateSection("Adaptation Guidelines", Guidelines(p))
  }

  /** The lines of the report, before they are joined with newlines. */
  function ReportLines(p: ToneProfile, toFixed: Num -> string, tables: LabelField -> DescriptionMap): seq<string> {
    StyleSection(p, tables) + TraitsSection(p, tables) + PatternsSection(p, tables) + LinguisticSection(p, tables)
    + PersonalizationSection(p) + BehaviorSection(p, tables) + MetricsSection(p, toFixed) + GuidelinesSection(p)
  }

  /** `generateLLMToneProfile` of the compiled renderer, which validates
      with the superset schema. */
  function GenerateLLMToneProfile(p: ToneProfile, toFixed: Num -> string): (r: Generation)
    ensures r.Thrown? <==> !(LabelsAdmitted(SUPERSET_SCHEMA, p) && MetricsInRange(p.metrics))
    ensures r.Thrown? ==> r.message == INVALID_PROFILE_MESSAGE
    ensures r.Generated? ==> r.text == Join(ReportLines(p, toFixed, DescriptionsOf), "\n")
  {
    if !ValidateToneProfile(p).success then Thrown(INVALID_PROFILE_MESSAGE)
    else Generated(Join(ReportLines(p, toFixed, DescriptionsOf), "\n"))
  }

  /** `generateLLMToneProfile` of the TypeScript renderer, which validates
      with the narrow schema. */
  function GenerateLLMToneProfileTs(p: ToneProfile, toFixed: Num -> string): (r: Generation)
    ensures r.Thrown? <==> !(LabelsAdmitted(NARROW_SCHEMA, p) && MetricsInRange(p.metrics))
    ensures r.Thrown? ==> r.message == INVALID_PROFILE_MESSAGE
    ensures r.Generated? ==> r.text == Join(ReportLines(p, toFixed, DescriptionsOf), "\n")
  {
    if !ValidateToneProfileTs(p).success then Thrown(INVALID_PROFILE_MESSAGE)
    else Generated(Join(ReportLines(p, toFixed, DescriptionsOf), "\n"))
  }

  // ----- properties of the report -----

  /** A markdown level-two heading. */
  predicate IsHeading(line: string) {
    StartsWith(line, "## ")
  }

  /** The headings of the report, in order. Each is written as the marker
      `## ` followed by its title, so that proofs see the marker without
      unfolding the title. */
  const HEADINGS: seq<string> := [
    "## " + "Communication Style Analysis", "## " + "Personality Traits", "## " + "Communication Patterns",
    "## " + "Linguistic Characteristics", "## " + "Personalization Elements", "## " + "Behavioral Patterns",
    "## " + "Key Metrics", "## " + "Adaptation Guidelines"]

  /** The headings among `lines`, in order. */
  function Headings(lines: seq<string>): seq<string> {
    if lines == [] then []
    else (if IsHeading(lines[0]) then [lines[0]] else []) + Headings(lines[1..])
  }

  lemma {:induction false} HeadingsAppend(a: seq<string>, b: seq<string>)
    ensures Headings(a + b) == Headings(a) + Headings(b)
  {
    if a == [] {
      assert a + b == b;
    } else {
      assert (a + b)[0] == a[0];
      assert (a + b)[1..] == a[1..] + b;
      HeadingsAppend(a[1..], b);
    }
  }

  /** Lines that do not start with `#` hold no heading. */
  lemma {:induction false} NoHeadings(lines: seq<string>)
    requires forall i :: 0 <= i < |lines| ==> |lines[i]| >= 1 && lines[i][0] != '#'
    ensures Headings(lines) == []
  {
    if lines != [] {
      if |lines[0]| >= 3 {
        assert lines[0][..3][0] == lines[0][0];
      }
      NoHeadings(lines[1..]);
    }
  }

  /** A section whose items do not start with `#` contributes exactly its
      title to the headings of the report. */
  lemma SectionHeading(title: string, items: seq<string>)
    requires forall i :: 0 <= i < |items| ==> |items[i]| >= 1 && items[i][0] != '#'
    ensures Headings(CreateSection(title, items)) == ["## " + title]
  {
    HeadingsAppend(["## " + title] + items, [""]);
    HeadingsAppend(["## " + title], items);
    NoHeadings(items);
    assert !IsHeading("");
    assert IsHeading("## " + title);
  }

  /** The sections of the report and their lengths. */
  lemma SectionLengths(p: ToneProfile, toFixed: Num -> string, tables: LabelField -> DescriptionMap)
    ensures |StyleSection(p, tables)| == 7 && |TraitsSection(p, tables)| == 6 && |PatternsSection(p, tables)| == 7
    ensures |LinguisticSection(p, tables)| == 5 && |PersonalizationSection(p)| == 5 && |BehaviorSection(p, tables)| == 4
    ensures |MetricsSection(p, toFixed)| == 8
    ensures |GuidelinesSection(p)| == (if p.discourseMarkers == "excessive" then 12 else 11)
  {
    LabelSectionLengths(p, tables);
    GuidelinesTail(p);
  }

  /** The lengths of the sections of described labels. */
  lemma LabelSectionLengths(p: ToneProfile, tables: LabelField -> DescriptionMap)
    ensures |StyleSection(p, tables)| == 7 && |TraitsSection(p, tables)| == 6 && |PatternsSection(p, tables)| == 7
    ensures |LinguisticSection(p, tables)| == 5 && |BehaviorSection(p, tables)| == 4
  {
  }

  lemma UpperSectionHeadings(p: ToneProfile, tables: LabelField -> DescriptionMap)
    ensures Headings(StyleSection(p, tables)) == [HEADINGS[0]]
    ensures Headings(TraitsSection(p, tables)) == [HEADINGS[1]]
  {
    assert Headings(StyleSection(p, tables)) == [HEADINGS[0]] by {
      SectionHeading("Communication Style Analysis", StyleItems(p, tables));
    }
    assert Headings(TraitsSection(p, tables)) == [HEADINGS[1]] by {
      SectionHeading("Personality Traits", TraitItems(p, tables));
    }
  }

  lemma MiddleSectionHeadings(p: ToneProfile, tables: LabelField -> DescriptionMap)
    ensures Headings(PatternsSection(p, tables)) == [HEADINGS[2]]
    ensures Headings(LinguisticSection(p, tables)) == [HEADINGS[3]]
  {
    assert Headings(PatternsSection(p, tables)) == [HEADINGS[2]] by {
      SectionHeading("Communication Patterns", PatternItems(p, tables));
    }
    assert Headings(LinguisticSection(p, tables)) == [HEADINGS[3]] by {
      SectionHeading("Linguistic Characteristics", LinguisticItems(p, tables));
    }
  }

  /** The lines of the adaptation guidelines are no headings. */
  lemma GuidelinesNoHeading(p: ToneProfile)
    ensures forall k :: 0 <= k < |Guidelines(p)| ==> |Guidelines(p)[k]| >= 1 && Guidelines(p)[k][0] != '#'
  {
    GuidelinesNumbered(p);
    var g := Guidelines(p);
    forall k | 0 <= k < |g|
      ensures |g[k]| >= 1 && g[k][0] != '#'
    {
      if k > 0 {
        assert g[k][0] == g[k][..3][0];
      }
    }
  }

  lemma LowerSectionHeadings(p: ToneProfile, tables: LabelField -> DescriptionMap)
    ensures Headings(PersonalizationSection(p)) == [HEADINGS[4]]
    ensures Headings(BehaviorSection(p, tables)) == [HEADINGS[5]]
  {
    assert Headings(PersonalizationSection(p)) == [HEADINGS[4]] by {
      SectionHeading("Personalization Elements", PersonalizationItems(p));
    }
    assert Headings(BehaviorSection(p, tables)) == [HEADINGS[5]] by {
      SectionHeading("Behavioral Patterns", BehaviorItems(p, tables));
    }
  }

  lemma TrailingSectionHeadings(p: ToneProfile, toFixed: Num -> string)
    ensures Headings(MetricsSection(p, toFixed)) == [HEADINGS[6]]
    ensures Headings(GuidelinesSection(p)) == [HEADINGS[7]]
  {
    assert Headings(MetricsSection(p, toFixed)) == [HEADINGS[6]] by {
      var m := MetricItems(p, toFixed);
      forall i | 0 <= i < |m|
        ensures |m[i]| >= 1 && m[i][0] != '#'
      {
        assert m[i][0] == m[i][..2][0];
      }
      SectionHeading("Key Metrics", m);
    }
    assert Headings(GuidelinesSection(p)) == [HEADINGS[7]] by {
      GuidelinesNoHeading(p);
      SectionHeading("Adaptation Guidelines", Guidelines(p));
    }
  }

  /** Eight sections with one heading each, concatenated. */
  lemma ConcatHeadings(s1: seq<string>, s2: seq<string>, s3: seq<string>, s4: seq<string>,
                       s5: seq<string>, s6: seq<string>, s7: seq<string>, s8: seq<string>)
    requires Headings(s1) == [HEADINGS[0]] && Headings(s2) == [HEADINGS[1]]
    requires Headings(s3) == [HEADINGS[2]] && Headings(s4) == [HEADINGS[3]]
    requires Headings(s5) == [HEADINGS[4]] && Headings(s6) == [HEADINGS[5]]
    requires Headings(s7) == [HEADINGS[6]] && Headings(s8) == [HEADINGS[7]]
    ensures Headings(s1 + s2 + s3 + s4 + s5 + s6 + s7 + s8) == HEADINGS
  {
    HeadingsAppend(s1, s2);
    HeadingsAppend(s1 + s2, s3);
    HeadingsAppend(s1 + s2 + s3, s4);
    HeadingsAppend(s1 + s2 + s3 + s4, s5);
    HeadingsAppend(s1 + s2 + s3 + s4 + s5, s6);
    HeadingsAppend(s1 + s2 + s3 + s4 + s5 + s6, s7);
    HeadingsAppend(s1 + s2 + s3 + s4 + s5 + s6 + s7, s8);
  }

  /** The report has exactly eight headings, in the order of the sections:
      no label, phrase, metric or guideline line can pass for a heading,
      since each starts with `*`, `-`, a digit or `W`. */
  lemma ReportHeadings(p: ToneProfile, toFixed: Num -> string, tables: LabelField -> DescriptionMap)
    ensures Headings(ReportLines(p, toFixed, tables)) == HEADINGS
  {
    UpperSectionHeadings(p, tables);
    MiddleSectionHeadings(p, tables);
    LowerSectionHeadings(p, tables);
    TrailingSectionHeadings(p, toFixed);
    ConcatHeadings(StyleSection(p, tables), TraitsSection(p, tables), PatternsSection(p, tables), LinguisticSection(p, tables),
      PersonalizationSection(p), BehaviorSection(p, tables), MetricsSection(p, toFixed), GuidelinesSection(p));
  }

  /** The report has 53 lines, one more when the filler guideline is
      present, with the headings at fixed positions and a blank last line. */
  lemma ReportOutline(p: ToneProfile, toFixed: Num -> string, tables: LabelField -> DescriptionMap)
    ensures var lines := ReportLines(p, toFixed, tables);
      && |lines| == (if p.discourseMarkers == "excessive" then 54 else 53)
      && lines[0] == HEADINGS[0] && lines[7] == HEADINGS[1] && lines[13] == HEADINGS[2]
      && lines[20] == HEADINGS[3] && lines[25] == HEADINGS[4] && lines[30] == HEADINGS[5]
      && lines[34] == HEADINGS[6] && lines[42] == HEADINGS[7]
      && lines[|lines| - 1] == ""
  {
    ReportSections(p, toFixed, tables);
    SectionTitles(p, toFixed, tables);
    var lines, g := ReportLines(p, toFixed, tables), GuidelinesSection(p);
    assert lines[0 + 0] == HEADINGS[0] && lines[7 + 0] == HEADINGS[1] && lines[13 + 0] == HEADINGS[2];
    assert lines[20 + 0] == HEADINGS[3] && lines[25 + 0] == HEADINGS[4] && lines[30 + 0] == HEADINGS[5];
    assert lines[34 + 0] == HEADINGS[6] && lines[42 + 0] == HEADINGS[7];
    assert lines[42 + (|g| - 1)] == g[|g| - 1];
  }

  /** Every section opens with its heading, and the last one closes with a
      blank line. */
  lemma SectionTitles(p: ToneProfile, toFixed: Num -> string, tables: LabelField -> DescriptionMap)
    ensures StyleSection(p, tables)[0] == HEADINGS[0] && TraitsSection(p, tables)[0] == HEADINGS[1]
    ensures PatternsSection(p, tables)[0] == HEADINGS[2] && LinguisticSection(p, tables)[0] == HEADINGS[3]
    ensures PersonalizationSection(p)[0] == HEADINGS[4] && BehaviorSection(p, tables)[0] == HEADINGS[5]
    ensures MetricsSection(p, toFixed)[0] == HEADINGS[6] && GuidelinesSection(p)[0] == HEADINGS[7]
    ensures GuidelinesSection(p)[|GuidelinesSection(p)| - 1] == ""
  {
    LabelSectionTitles(p, tables);
    OtherSectionTitles(p, toFixed);
  }

  lemma LabelSectionTitles(p: ToneProfile, tables: LabelField -> DescriptionMap)
    ensures StyleSection(p, tables)[0] == HEADINGS[0] && TraitsSection(p, tables)[0] == HEADINGS[1]
    ensures PatternsSection(p, tables)[0] == HEADINGS[2] && LinguisticSection(p, tables)[0] == HEADINGS[3]
    ensures BehaviorSection(p, tables)[0] == HEADINGS[5]
  {
    UpperSectionTitles(p, tables);
    MiddleSectionTitles(p, tables);
  }

  lemma UpperSectionTitles(p: ToneProfile, tables: LabelField -> DescriptionMap)
    ensures StyleSection(p, tables)[0] == HEADINGS[0] && TraitsSection(p, tables)[0] == HEADINGS[1]
  {
  }

  lemma MiddleSectionTitles(p: ToneProfile, tables: LabelField -> DescriptionMap)
    ensures PatternsSection(p, tables)[0] == HEADINGS[2] && LinguisticSection(p, tables)[0] == HEADINGS[3]
    ensures BehaviorSection(p, tables)[0] == HEADINGS[5]
  {
  }

  lemma OtherSectionTitles(p: ToneProfile, toFixed: Num -> string)
    ensures PersonalizationSection(p)[0] == HEADINGS[4]
    ensures MetricsSection(p, toFixed)[0] == HEADINGS[6] && GuidelinesSection(p)[0] == HEADINGS[7]
    ensures GuidelinesSection(p)[|GuidelinesSection(p)| - 1] == ""
  {
    GuidelinesSectionEnds(p);
  }

  lemma GuidelinesSectionEnds(p: ToneProfile)
    ensures GuidelinesSection(p)[0] == HEADINGS[7]
    ensures GuidelinesSection(p)[|GuidelinesSection(p)| - 1] == ""
  {
  }

  /** The guidelines after the six fixed ones. */
  lemma GuidelinesTail(p: ToneProfile)
    ensures var g := Guidelines(p);
      if p.discourseMarkers == "excessive" then
        |g| == 10 && g[7] == Numbered(7, FILLER_ADVICE)
        && g[8] == Numbered(8, SignatureAdvice(p.signaturePhrases)) && g[9] == Numbered(9, QuirksAdvice(p.communicationQuirks))
      else
        |g| == 9 && g[7] == Numbered(7, SignatureAdvice(p.signaturePhrases))
        && g[8] == Numbered(8, QuirksAdvice(p.communicationQuirks))
  {
  }

  /** The digit character of a guideline number. */
  function Numeral(k: nat): char
    requires k <= 9
  {
    ('0' as int + k) as char
  }

  /** After the lead-in line the guidelines are numbered 1, 2, 3, … without
      a gap or a repeat, whether or not the filler guideline is present. */
  lemma GuidelinesNumbered(p: ToneProfile)
    ensures var g := Guidelines(p);
      && |g| == (if p.discourseMarkers == "excessive" then 10 else 9)
      && g[0] == LEAD_IN
      && forall k :: 1 <= k < |g| ==> |g[k]| >= 3 && g[k][..3] == [Numeral(k), '.', ' ']
  {
    GuidelinesHead(p);
    GuidelinesTail(p);
    var g := Guidelines(p);
    forall k | 7 <= k < |g|
      ensures |g[k]| >= 3 && g[k][..3] == [Numeral(k), '.', ' ']
    {
      if k == 7 {
      } else if k == 8 {
      } else {
        assert k == 9;
      }
    }
  }

  /** The lead-in and the six guidelines every report has. */
  lemma GuidelinesHead(p: ToneProfile)
    ensures var g := Guidelines(p);
      && |g| >= 7
      && g[0] == LEAD_IN
      && forall k :: 1 <= k < 7 ==> |g[k]| >= 3 && g[k][..3] == [Numeral(k), '.', ' ']
  {
  }

  /** The humor guideline reads `Avoid humor` exactly when the humor label
      is `none`; the signature-phrase and quirk guidelines fall back to
      their fixed advice exactly when the lists are empty. */
  lemma GuidelineChoices(p: ToneProfile)
    ensures var g := Guidelines(p);
      && |g| >= 9
      && (g[4][3..] == "Avoid humor" <==> p.humor == "none")
      && (g[|g| - 2][3..] == "Avoid signature phrases" <==> p.signaturePhrases == [])
      && (g[|g| - 1][3..] == "Maintain clean communication style" <==> p.communicationQuirks == [])
  {
    var g := Guidelines(p);
    GuidelinesTail(p);
    var sig, quirks := SignatureAdvice(p.signaturePhrases), QuirksAdvice(p.communicationQuirks);
    assert g[|g| - 2][3..] == sig;
    assert g[|g| - 1][3..] == quirks;
    if p.humor != "none" {
      assert g[4][3..][0] == 'U';
    }
    if p.signaturePhrases != [] {
      assert sig[0] == 'I';
    }
    if p.communicationQuirks != [] {
      assert quirks[0] == 'I';
    }
  }

  // ----- the described labels -----

  /** The line of the report that describes a categorical key. */
  function LabelLine(f: LabelField): nat {
    match f
    case formality => 1
    case politeness => 2
    case emotion => 3
    case conciseness => 4
    case energy => 5
    case humor => 8
    case technicality => 9
    case empathy => 10
    case confidence => 11
    case questionStyle => 14
    case greetingStyle => 15
    case closingStyle => 16
    case interruptionStyle => 17
    case responsePattern => 18
    case vocabularyLevel => 21
    case sentenceComplexity => 22
    case discourseMarkers => 23
    case conflictStyle => 31
    case feedbackStyle => 32
  }

  /** The bold key a categorical key is shown under. */
  function LabelKey(f: LabelField): string {
    match f
    case formality => "Formality"
    case politeness => "Politeness"
    case emotion => "Emotional Tone"
    case conciseness => "Conciseness"
    case energy => "Energy Level"
    case humor => "Humor Style"
    case technicality => "Technical Level"
    case empathy => "Empathy Level"
    case confidence => "Confidence Level"
    case questionStyle => "Question Style"
    case greetingStyle => "Greeting Style"
    case closingStyle => "Closing Style"
    case interruptionStyle => "Interruption Style"
    case responsePattern => "Response Pattern"
    case vocabularyLevel => "Vocabulary Level"
    case sentenceComplexity => "Sentence Complexity"
    case discourseMarkers => "Discourse Markers"
    case conflictStyle => "Conflict Style"
    case feedbackStyle => "Feedback Style"
  }

  /** What a label without a description is described as: `createKeyValue`
      says so, the response pattern has its own sentence, and the other
      `get…Description` helpers give the empty string. */
  function FallbackOf(f: LabelField): string {
    match f
    case formality => "No description available"
    case politeness => "No description available"
    case emotion => "No description available"
    case conciseness => "No description available"
    case energy => "No description available"
    case responsePattern => "No specific response pattern detected"
    case _ => ""
  }

  /** Where the lines of each section sit in the concatenation. */
  lemma ConcatItems(s1: seq<string>, s2: seq<string>, s3: seq<string>, s4: seq<string>,
                    s5: seq<string>, s6: seq<string>, s7: seq<string>, s8: seq<string>)
    requires |s1| == 7 && |s2| == 6 && |s3| == 7 && |s4| == 5 && |s5| == 5 && |s6| == 4 && |s7| == 8
    ensures var lines := s1 + s2 + s3 + s4 + s5 + s6 + s7 + s8;
      && |lines| == 42 + |s8|
      && (forall i :: 0 <= i < 7 ==> lines[i] == s1[i])
      && (forall i :: 0 <= i < 6 ==> lines[7 + i] == s2[i])
      && (forall i :: 0 <= i < 7 ==> lines[13 + i] == s3[i])
      && (forall i :: 0 <= i < 5 ==> lines[20 + i] == s4[i])
      && (forall i :: 0 <= i < 5 ==> lines[25 + i] == s5[i])
      && (forall i :: 0 <= i < 4 ==> lines[30 + i] == s6[i])
      && (forall i :: 0 <= i < 8 ==> lines[34 + i] == s7[i])
      && (forall i :: 0 <= i < |s8| ==> lines[42 + i] == s8[i])
  {
  }

  /** The sections of a report and where their lines sit. */
  lemma ReportSections(p: ToneProfile, toFixed: Num -> string, tables: LabelField -> DescriptionMap)
    ensures var lines := ReportLines(p, toFixed, tables);
      && |lines| >= 53 && |lines| == 42 + |GuidelinesSection(p)|
      && (forall i :: 0 <= i < 7 ==> lines[i] == StyleSection(p, tables)[i])
      && (forall i :: 0 <= i < 6 ==> lines[7 + i] == TraitsSection(p, tables)[i])
      && (forall i :: 0 <= i < 7 ==> lines[13 + i] == PatternsSection(p, tables)[i])
      && (forall i :: 0 <= i < 5 ==> lines[20 + i] == LinguisticSection(p, tables)[i])
      && (forall i :: 0 <= i < 5 ==> lines[25 + i] == PersonalizationSection(p)[i])
      && (forall i :: 0 <= i < 4 ==> lines[30 + i] == BehaviorSection(p, tables)[i])
      && (forall i :: 0 <= i < 8 ==> lines[34 + i] == MetricsSection(p, toFixed)[i])
      && (forall i :: 0 <= i < |GuidelinesSection(p)| ==> lines[42 + i] == GuidelinesSection(p)[i])
  {
    SectionLengths(p, toFixed, tables);
    ConcatItems(StyleSection(p, tables), TraitsSection(p, tables), PatternsSection(p, tables), LinguisticSection(p, tables),
      PersonalizationSection(p), BehaviorSection(p, tables), MetricsSection(p, toFixed), GuidelinesSection(p));
  }

  lemma StyleLabelLine(p: ToneProfile, toFixed: Num -> string, tables: LabelField -> DescriptionMap, f: LabelField)
    requires f == formality || f == politeness || f == emotion || f == conciseness || f == energy
    ensures LabelLine(f) < |ReportLines(p, toFixed, tables)|
    ensures ReportLines(p, toFixed, tables)[LabelLine(f)]
      == Item(LabelKey(f), Label(p, f), Describe(tables(f), Label(p, f), FallbackOf(f)))
  {
    StyleSectionAt(p, toFixed, tables);
    StyleSectionLines(p, tables);
    var lines := ReportLines(p, toFixed, tables);
    if f == formality {
      assert lines[0 + 1] == StyleSection(p, tables)[1];
    } else if f == politeness {
      assert lines[0 + 2] == StyleSection(p, tables)[2];
    } else if f == emotion {
      assert lines[0 + 3] == StyleSection(p, tables)[3];
    } else if f == conciseness {
      assert lines[0 + 4] == StyleSection(p, tables)[4];
    } else {
      assert lines[0 + 5] == StyleSection(p, tables)[5];
    }
  }

  /** The five communication-style label items, after the section heading. */
  lemma StyleSectionLines(p: ToneProfile, tables: LabelField -> DescriptionMap)
    ensures var s := StyleSection(p, tables);
      && |s| == 7
      && s[1] == Item(LabelKey(formality), Label(p, formality), Describe(tables(formality), Label(p, formality), FallbackOf(formality)))
      && s[2] == Item(LabelKey(politeness), Label(p, politeness), Describe(tables(politeness), Label(p, politeness), FallbackOf(politeness)))
      && s[3] == Item(LabelKey(emotion), Label(p, emotion), Describe(tables(emotion), Label(p, emotion), FallbackOf(emotion)))
      && s[4] == Item(LabelKey(conciseness), Label(p, conciseness), Describe(tables(conciseness), Label(p, conciseness), FallbackOf(conciseness)))
      && s[5] == Item(LabelKey(energy), Label(p, energy), Describe(tables(energy), Label(p, energy), FallbackOf(energy)))
  {
  }

  /** Where the communication-style section sits in the report. */
  lemma StyleSectionAt(p: ToneProfile, toFixed: Num -> string, tables: LabelField -> DescriptionMap)
    ensures |ReportLines(p, toFixed, tables)| >= 7
    ensures forall i :: 0 <= i < 7 ==> ReportLines(p, toFixed, tables)[0 + i] == StyleSection(p, tables)[i]
  {
    ReportSections(p, toFixed, tables);
  }

  lemma TraitsLabelLine(p: ToneProfile, toFixed: Num -> string, tables: LabelField -> DescriptionMap, f: LabelField)
    requires f == humor || f == technicality || f == empathy || f == confidence
    ensures LabelLine(f) < |ReportLines(p, toFixed, tables)|
    ensures ReportLines(p, toFixed, tables)[LabelLine(f)]
      == Item(LabelKey(f), Label(p, f), Describe(tables(f), Label(p, f), FallbackOf(f)))
  {
    TraitsSectionAt(p, toFixed, tables);
    TraitsSectionLines(p, tables);
    var lines := ReportLines(p, toFixed, tables);
    if f == humor {
      assert lines[7 + 1] == TraitsSection(p, tables)[1];
    } else if f == technicality {
      assert lines[7 + 2] == TraitsSection(p, tables)[2];
    } else if f == empathy {
      assert lines[7 + 3] == TraitsSection(p, tables)[3];
    } else {
      assert lines[7 + 4] == TraitsSection(p, tables)[4];
    }
  }

  /** The four personality-trait label items, after the section heading. */
  lemma TraitsSectionLines(p: ToneProfile, tables: LabelField -> DescriptionMap)
    ensures var s := TraitsSection(p, tables);
      && |s| == 6
      && s[1] == Item(LabelKey(humor), Label(p, humor), Describe(tables(humor), Label(p, humor), FallbackOf(humor)))
      && s[2] == Item(LabelKey(technicality), Label(p, technicality), Describe(tables(technicality), Label(p, technicality), FallbackOf(technicality)))
      && s[3] == Item(LabelKey(empathy), Label(p, empathy), Describe(tables(empathy), Label(p, empathy), FallbackOf(empathy)))
      && s[4] == Item(LabelKey(confidence), Label(p, confidence), Describe(tables(confidence), Label(p, confidence), FallbackOf(confidence)))
  {
  }

  /** Where the personality-traits section sits in the report. */
  lemma TraitsSectionAt(p: ToneProfile, toFixed: Num -> string, tables: LabelField -> DescriptionMap)
    ensures |ReportLines(p, toFixed, tables)| >= 13
    ensures forall i :: 0 <= i < 6 ==> ReportLines(p, toFixed, tables)[7 + i] == TraitsSection(p, tables)[i]
  {
    ReportSections(p, toFixed, tables);
  }

  lemma PatternsLabelLine(p: ToneProfile, toFixed: Num -> string, tables: LabelField -> DescriptionMap, f: LabelField)
    requires f == questionStyle || f == greetingStyle || f == closingStyle || f == interruptionStyle || f == responsePattern
    ensures LabelLine(f) < |ReportLines(p, toFixed, tables)|
    ensures ReportLines(p, toFixed, tables)[LabelLine(f)]
      == Item(LabelKey(f), Label(p, f), Describe(tables(f), Label(p, f), FallbackOf(f)))
  {
    PatternsSectionAt(p, toFixed, tables);
    PatternsSectionLines(p, tables);
    PatternsSectionTail(p, tables);
    var lines := ReportLines(p, toFixed, tables);
    if f == questionStyle {
      assert lines[13 + 1] == PatternsSection(p, tables)[1];
    } else if f == greetingStyle {
      assert lines[13 + 2] == PatternsSection(p, tables)[2];
    } else if f == closingStyle {
      assert lines[13 + 3] == PatternsSection(p, tables)[3];
    } else if f == interruptionStyle {
      assert lines[13 + 4] == PatternsSection(p, tables)[4];
    } else {
      assert lines[13 + 5] == PatternsSection(p, tables)[5];
    }
  }

  /** The first three communication-pattern label items, after the section
      heading. */
  lemma PatternsSectionLines(p: ToneProfile, tables: LabelField -> DescriptionMap)
    ensures var s := PatternsSection(p, tables);
      && |s| == 7
      && s[1] == Item(LabelKey(questionStyle), Label(p, questionStyle), Describe(tables(questionStyle), Label(p, questionStyle), FallbackOf(questionStyle)))
      && s[2] == Item(LabelKey(greetingStyle), Label(p, greetingStyle), Describe(tables(greetingStyle), Label(p, greetingStyle), FallbackOf(greetingStyle)))
      && s[3] == Item(LabelKey(closingStyle), Label(p, closingStyle), Describe(tables(closingStyle), Label(p, closingStyle), FallbackOf(closingStyle)))
  {
  }

  /** The interruption and response-pattern items that end the section. */
  lemma PatternsSectionTail(p: ToneProfile, tables: LabelField -> DescriptionMap)
    ensures var s := PatternsSection(p, tables);
      && |s| == 7
      && s[4] == Item(LabelKey(interruptionStyle), Label(p, interruptionStyle), Describe(tables(interruptionStyle), Label(p, interruptionStyle), FallbackOf(interruptionStyle)))
      && s[5] == Item(LabelKey(responsePattern), Label(p, responsePattern), Describe(tables(responsePattern), Label(p, responsePattern), FallbackOf(responsePattern)))
  {
  }

  /** Where the communication-patterns section sits in the report. */
  lemma PatternsSectionAt(p: ToneProfile, toFixed: Num -> string, tables: LabelField -> DescriptionMap)
    ensures |ReportLines(p, toFixed, tables)| >= 20
    ensures forall i :: 0 <= i < 7 ==> ReportLines(p, toFixed, tables)[13 + i] == PatternsSection(p, tables)[i]
  {
    ReportSections(p, toFixed, tables);
  }

  lemma LinguisticLabelLine(p: ToneProfile, toFixed: Num -> string, tables: LabelField -> DescriptionMap, f: LabelField)
    requires f == vocabularyLevel || f == sentenceComplexity || f == discourseMarkers
    ensures LabelLine(f) < |ReportLines(p, toFixed, tables)|
    ensures ReportLines(p, toFixed, tables)[LabelLine(f)]
      == Item(LabelKey(f), Label(p, f), Describe(tables(f), Label(p, f), FallbackOf(f)))
  {
    LinguisticSectionAt(p, toFixed, tables);
    LinguisticSectionLines(p, tables);
    var lines := ReportLines(p, toFixed, tables);
    if f == vocabularyLevel {
      assert lines[20 + 1] == LinguisticSection(p, tables)[1];
    } else if f == sentenceComplexity {
      assert lines[20 + 2] == LinguisticSection(p, tables)[2];
    } else {
      assert lines[20 + 3] == LinguisticSection(p, tables)[3];
    }
  }

  /** The three linguistic label items, after the section heading. */
  lemma LinguisticSectionLines(p: ToneProfile, tables: LabelField -> DescriptionMap)
    ensures var s := LinguisticSection(p, tables);
      && |s| == 5
      && s[1] == Item(LabelKey(vocabularyLevel), Label(p, vocabularyLevel), Describe(tables(vocabularyLevel), Label(p, vocabularyLevel), FallbackOf(vocabularyLevel)))
      && s[2] == Item(LabelKey(sentenceComplexity), Label(p, sentenceComplexity), Describe(tables(sentenceComplexity), Label(p, sentenceComplexity), FallbackOf(sentenceComplexity)))
      && s[3] == Item(LabelKey(discourseMarkers), Label(p, discourseMarkers), Describe(tables(discourseMarkers), Label(p, discourseMarkers), FallbackOf(discourseMarkers)))
  {
  }

  /** Where the linguistic section sits in the report. */
  lemma LinguisticSectionAt(p: ToneProfile, toFixed: Num -> string, tables: LabelField -> DescriptionMap)
    ensures |ReportLines(p, toFixed, tables)| >= 25
    ensures forall i :: 0 <= i < 5 ==> ReportLines(p, toFixed, tables)[20 + i] == LinguisticSection(p, tables)[i]
  {
    ReportSections(p, toFixed, tables);
  }

  lemma BehaviorLabelLine(p: ToneProfile, toFixed: Num -> string, tables: LabelField -> DescriptionMap, f: LabelField)
    requires f == conflictStyle || f == feedbackStyle
    ensures LabelLine(f) < |ReportLines(p, toFixed, tables)|
    ensures ReportLines(p, toFixed, tables)[LabelLine(f)]
      == Item(LabelKey(f), Label(p, f), Describe(tables(f), Label(p, f), FallbackOf(f)))
  {
    BehaviorSectionAt(p, toFixed, tables);
    BehaviorSectionLines(p, tables);
    var lines, s := ReportLines(p, toFixed, tables), BehaviorSection(p, tables);
    if f == conflictStyle {
      assert lines[30 + 1] == s[1];
    } else {
      assert lines[30 + 2] == s[2];
    }
  }

  /** Where the behavioral section sits in the report. */
  lemma BehaviorSectionAt(p: ToneProfile, toFixed: Num -> string, tables: LabelField -> DescriptionMap)
    ensures |ReportLines(p, toFixed, tables)| >= 34
    ensures forall i :: 0 <= i < 4 ==> ReportLines(p, toFixed, tables)[30 + i] == BehaviorSection(p, tables)[i]
  {
    ReportSections(p, toFixed, tables);
  }

  /** The two behavioral label items, after the section heading. */
  lemma BehaviorSectionLines(p: ToneProfile, tables: LabelField -> DescriptionMap)
    ensures var s := BehaviorSection(p, tables);
      && |s| == 4
      && s[1] == Item(LabelKey(conflictStyle), Label(p, conflictStyle),
        Describe(tables(conflictStyle), Label(p, conflictStyle), FallbackOf(conflictStyle)))
      && s[2] == Item(LabelKey(feedbackStyle), Label(p, feedbackStyle),
        Describe(tables(feedbackStyle), Label(p, feedbackStyle), FallbackOf(feedbackStyle)))
  {
  }

  /** Each labelled line shows its key, the profile's label, and the
      label's description or the key's fallback. */
  lemma LabelLineRendered(p: ToneProfile, toFixed: Num -> string, tables: LabelField -> DescriptionMap, f: LabelField)
    ensures LabelLine(f) < |ReportLines(p, toFixed, tables)|
    ensures ReportLines(p, toFixed, tables)[LabelLine(f)]
      == Item(LabelKey(f), Label(p, f), Describe(tables(f), Label(p, f), FallbackOf(f)))
  {
    match f
    case formality => StyleLabelLine(p, toFixed, tables, f);
    case politeness => StyleLabelLine(p, toFixed, tables, f);
    case emotion => StyleLabelLine(p, toFixed, tables, f);
    case conciseness => StyleLabelLine(p, toFixed, tables, f);
    case energy => StyleLabelLine(p, toFixed, tables, f);
    case humor => TraitsLabelLine(p, toFixed, tables, f);
    case technicality => TraitsLabelLine(p, toFixed, tables, f);
    case empathy => TraitsLabelLine(p, toFixed, tables, f);
    case confidence => TraitsLabelLine(p, toFixed, tables, f);
    case questionStyle => PatternsLabelLine(p, toFixed, tables, f);
    case greetingStyle => PatternsLabelLine(p, toFixed, tables, f);
    case closingStyle => PatternsLabelLine(p, toFixed, tables, f);
    case interruptionStyle => PatternsLabelLine(p, toFixed, tables, f);
    case responsePattern => PatternsLabelLine(p, toFixed, tables, f);
    case vocabularyLevel => LinguisticLabelLine(p, toFixed, tables, f);
    case sentenceComplexity => LinguisticLabelLine(p, toFixed, tables, f);
    case discourseMarkers => LinguisticLabelLine(p, toFixed, tables, f);
    case conflictStyle => BehaviorLabelLine(p, toFixed, tables, f);
    case feedbackStyle => BehaviorLabelLine(p, toFixed, tables, f);
  }

  /** A response pattern without a description is shown with the sentence
      `getResponsePatternDescription` falls back to. */
  lemma UndescribedResponsePattern(p: ToneProfile, toFixed: Num -> string, tables: LabelField -> DescriptionMap)
    requires !Described(tables(responsePattern), p.responsePattern)
    ensures ReportLines(p, toFixed, tables)[18]
      == Item("Response Pattern", p.responsePattern, "No specific response pattern detected")
  {
    PatternsLabelLine(p, toFixed, tables, responsePattern);
  }

  /** The personalization lines: signature phrases and quirks joined with
      commas, or `None detected` for an empty list; the common words cut to
      the first five by `Take`, which keeps a prefix of at most five words
      and the whole list when it is short. */
  lemma PersonalizationLines(p: ToneProfile, toFixed: Num -> string, tables: LabelField -> DescriptionMap)
    ensures var lines := ReportLines(p, toFixed, tables);
      && |lines| > 28
      && lines[26] == "**Signature Phrases**: "
        + (if p.signaturePhrases == [] then "None detected" else Join(p.signaturePhrases, ", "))
      && lines[27] == "**Common Words**: " + Join(Take(p.commonWords, 5), ", ")
      && lines[28] == "**Communication Quirks**: "
        + (if p.communicationQuirks == [] then "None detected" else Join(p.communicationQuirks, ", "))
  {
    PersonalizationSectionAt(p, toFixed, tables);
    PersonalizationSectionLines(p);
    var lines, s := ReportLines(p, toFixed, tables), PersonalizationSection(p);
    assert lines[25 + 1] == s[1];
    assert lines[25 + 2] == s[2];
    assert lines[25 + 3] == s[3];
  }

  /** Where the personalization section sits in the report. */
  lemma PersonalizationSectionAt(p: ToneProfile, toFixed: Num -> string, tables: LabelField -> DescriptionMap)
    ensures |ReportLines(p, toFixed, tables)| >= 30
    ensures forall i :: 0 <= i < 5 ==> ReportLines(p, toFixed, tables)[25 + i] == PersonalizationSection(p)[i]
  {
    ReportSections(p, toFixed, tables);
  }

  /** The three items of the personalization section, after its heading. */
  lemma PersonalizationSectionLines(p: ToneProfile)
    ensures var s := PersonalizationSection(p);
      && |s| == 5
      && s[1] == "**Signature Phrases**: " + ListOrNone(p.signaturePhrases)
      && s[2] == "**Common Words**: " + Join(Take(p.commonWords, 5), ", ")
      && s[3] == "**Communication Quirks**: " + ListOrNone(p.communicationQuirks)
  {
    var items, s := PersonalizationItems(p), PersonalizationSection(p);
    assert s == ["## " + "Personalization Elements"] + items + [""];
    assert s[1] == items[0] && s[2] == items[1] && s[3] == items[2];
  }

  /** A table holds a non-empty description for a key. */
  predicate Described(table: DescriptionMap, key: string) {
    Lookup(table, key) != ""
  }

  /** The keys of a table, in order. */
  function KeyList(table: DescriptionMap): (r: seq<string>)
    ensures |r| == |table|
  {
    if table == [] then [] else [table[0].0] + KeyList(table[1..])
  }

  /** Only a key of the table can have a description. */
  lemma {:induction false} DescribedKey(table: DescriptionMap, key: string)
    ensures Described(table, key) ==> key in KeyList(table)
  {
    if table != [] && table[0].0 != key {
      DescribedKey(table[1..], key);
    }
  }

  /** Every key of a table whose descriptions are all non-empty is described. */
  lemma {:induction false} KeyDescribed(table: DescriptionMap, key: string)
    requires forall i :: 0 <= i < |table| ==> table[i].1 != ""
    requires key in KeyList(table)
    ensures Described(table, key)
  {
    if table[0].0 != key {
      KeyDescribed(table[1..], key);
    }
  }

  /** A table with non-empty descriptions describes exactly its keys. */
  lemma TableDescribes(table: DescriptionMap, labels: set<string>)
    requires forall i :: 0 <= i < |table| ==> table[i].1 != ""
    requires forall s :: s in labels <==> s in KeyList(table)
    ensures forall s :: Described(table, s) <==> s in labels
  {
    forall s
      ensures Described(table, s) <==> s in labels
    {
      DescribedKey(table, s);
      if s in labels {
        KeyDescribed(table, s);
      }
    }
  }

  /** The description tables describe exactly the labels of the declared
      unions, which are the labels the compiled validator admits. */
  lemma DescriptionTablesMatchSuperset(f: LabelField)
    ensures forall s :: Described(DescriptionsOf(f), s) <==> s in Admitted(SUPERSET_SCHEMA, f)
  {
    AllTablesMatch(f);
    TableDescribes(DescriptionsOf(f), Admitted(SUPERSET_SCHEMA, f));
  }

  lemma AllTablesMatch(f: LabelField)
    ensures TableMatches(f)
  {
    if f == formality || f == politeness {
      FormalityTablesMatch(f);
    } else if f == emotion {
      EmotionTablesMatch();
    } else if f == conciseness || f == energy {
      ConcisenessTablesMatch(f);
    } else if f == humor || f == technicality {
      HumorTablesMatch(f);
    } else if f == empathy || f == confidence {
      EmpathyTablesMatch(f);
    } else if f == questionStyle || f == greetingStyle || f == closingStyle {
      QuestionTablesMatch(f);
    } else if f == interruptionStyle || f == responsePattern {
      InterruptionTablesMatch(f);
    } else if f == vocabularyLevel || f == sentenceComplexity || f == discourseMarkers {
      LinguisticTablesMatch(f);
    } else {
      BehaviorTablesMatch(f);
    }
  }

  /** A table's descriptions are non-empty and its keys are the labels the
      compiled validator admits. */
  ghost predicate TableMatches(f: LabelField) {
    && (forall i :: 0 <= i < |DescriptionsOf(f)| ==> DescriptionsOf(f)[i].1 != "")
    && (forall s :: s in Admitted(SUPERSET_SCHEMA, f) <==> s in KeyList(DescriptionsOf(f)))
  }

  lemma FormalityTablesMatch(f: LabelField)
    requires f == formality || f == politeness
    ensures TableMatches(f)
  {
    if f == formality {
    } else {
    }
  }

  lemma EmotionTablesMatch()
    ensures TableMatches(emotion)
  {
  }

  lemma ConcisenessTablesMatch(f: LabelField)
    requires f == conciseness || f == energy
    ensures TableMatches(f)
  {
    if f == conciseness {
    } else {
    }
  }

  lemma HumorTablesMatch(f: LabelField)
    requires f == humor || f == technicality
    ensures TableMatches(f)
  {
    if f == humor {
    } else {
    }
  }

  lemma EmpathyTablesMatch(f: LabelField)
    requires f == empathy || f == confidence
    ensures TableMatches(f)
  {
    if f == empathy {
    } else {
    }
  }

  lemma QuestionTablesMatch(f: LabelField)
    requires f == questionStyle || f == greetingStyle || f == closingStyle
    ensures TableMatches(f)
  {
    if f == questionStyle {
    } else if f == greetingStyle {
    } else {
    }
  }

  lemma InterruptionTablesMatch(f: LabelField)
    requires f == interruptionStyle || f == responsePattern
    ensures TableMatches(f)
  {
    if f == interruptionStyle {
    } else {
    }
  }

  lemma LinguisticTablesMatch(f: LabelField)
    requires f == vocabularyLevel || f == sentenceComplexity || f == discourseMarkers
    ensures TableMatches(f)
  {
    if f == vocabularyLevel {
    } else if f == sentenceComplexity {
    } else {
    }
  }

  lemma BehaviorTablesMatch(f: LabelField)
    requires f == conflictStyle || f == feedbackStyle
    ensures TableMatches(f)
  {
    if f == conflictStyle {
    } else {
    }
  }

  /** Once its labels are admitted, the compiled renderer reports on a
      profile exactly when the metrics lie in their ranges. */
  lemma RenderedWhenLabelsAdmitted(p: ToneProfile, toFixed: Num -> string)
    requires LabelsAdmitted(SUPERSET_SCHEMA, p)
    ensures GenerateLLMToneProfile(p, toFixed).Generated? <==> MetricsInRange(p.metrics)
  {
  }

  /** The TypeScript renderer throws on the politeness `neutral`. */
  lemma TsRendererRejectsNeutral(p: ToneProfile, toFixed: Num -> string)
    requires p.politeness == "neutral"
    ensures GenerateLLMToneProfileTs(p, toFixed) == Thrown(INVALID_PROFILE_MESSAGE)
  {
    NarrowRejectsNeutralPoliteness(p);
  }

  /** The TypeScript renderer reports only on the energies `high-energy`,
      `moderate` and `low-energy`. */
  lemma TsRenderedEnergy(p: ToneProfile, toFixed: Num -> string)
    requires GenerateLLMToneProfileTs(p, toFixed).Generated?
    ensures p.energy in {"high-energy", "moderate", "low-energy"}
  {
    NarrowAdmittedEnergy(p);
  }

  /** A profile the compiled renderer accepts shows every categorical label
      with its own description, never with a fallback. */
  lemma AcceptedProfileDescribed(p: ToneProfile, toFixed: Num -> string, f: LabelField)
    requires GenerateLLMToneProfile(p, toFixed).Generated?
    ensures Described(DescriptionsOf(f), Label(p, f))
    ensures LabelLine(f) < |ReportLines(p, toFixed, DescriptionsOf)|
    ensures ReportLines(p, toFixed, DescriptionsOf)[LabelLine(f)]
      == Item(LabelKey(f), Label(p, f), Lookup(DescriptionsOf(f), Label(p, f)))
  {
    LabelLineRendered(p, toFixed, DescriptionsOf, f);
    DescriptionTablesMatchSuperset(f);
  }

  /** The two technicality labels only the narrow schema lists have no
      description: their line shows an empty one. */
  lemma UndescribedTechnicalityLine(p: ToneProfile, toFixed: Num -> string)
    requires p.technicality == "semi-technical" || p.technicality == "highly-technical"
    ensures ReportLines(p, toFixed, DescriptionsOf)[9] == Item("Technical Level", p.technicality, "")
  {
    TechnicalityUndescribed(p.technicality);
    EmptyTechnicalityLine(p, toFixed, DescriptionsOf);
  }

  /** Whatever the tables, a technicality whose description is empty is
      shown with an empty description. */
  lemma EmptyTechnicalityLine(p: ToneProfile, toFixed: Num -> string, tables: LabelField -> DescriptionMap)
    requires Lookup(tables(technicality), p.technicality) == ""
    ensures ReportLines(p, toFixed, tables)[9] == Item("Technical Level", p.technicality, "")
  {
    TraitsLabelLine(p, toFixed, tables, technicality);
    assert Label(p, technicality) == p.technicality;
  }

  lemma TechnicalityUndescribed(s: string)
    requires s == "semi-technical" || s == "highly-technical"
    ensures Lookup(TECHNICALITY_DESCRIPTIONS, s) == ""
  {
    if s == "semi-technical" {
      assert Lookup(TECHNICALITY_DESCRIPTIONS, "semi-technical") == "";
    } else {
      assert Lookup(TECHNICALITY_DESCRIPTIONS, "highly-technical") == "";
    }
  }

  /** The TypeScript renderer accepts those technicality labels and shows
      them with an empty description; the compiled renderer throws on the
      same profile. */
  lemma NarrowTechnicalityUndescribed(p: ToneProfile, toFixed: Num -> string)
    requires GenerateLLMToneProfileTs(p, toFixed).Generated?
    requires p.technicality == "semi-technical" || p.technicality == "highly-technical"
    ensures ReportLines(p, toFixed, DescriptionsOf)[9] == Item("Technical Level", p.technicality, "")
    ensures GenerateLLMToneProfile(p, toFixed).Thrown?
  {
    UndescribedTechnicalityLine(p, toFixed);
    SupersetRejectsTechnicality(p);
  }

  /** Outside those two technicality labels, whatever the TypeScript
      renderer accepts the compiled renderer renders identically. */
  lemma RenderersAgree(p: ToneProfile, toFixed: Num -> string)
    requires GenerateLLMToneProfileTs(p, toFixed).Generated?
    requires p.technicality != "semi-technical" && p.technicality != "highly-technical"
    ensures GenerateLLMToneProfile(p, toFixed) == GenerateLLMToneProfileTs(p, toFixed)
  {
    NarrowAdmittedWithinSuperset(p);
  }

  /** The number formatter reaches only the six metric lines: two
      formatters give reports of the same length that agree elsewhere. */
  lemma FormatterOnlyInMetrics(p: ToneProfile, t1: Num -> string, t2: Num -> string, tables: LabelField -> DescriptionMap)
    ensures |ReportLines(p, t1, tables)| == |ReportLines(p, t2, tables)|
    ensures forall i :: 0 <= i < |ReportLines(p, t1, tables)| && !(35 <= i <= 40) ==>
      ReportLines(p, t1, tables)[i] == ReportLines(p, t2, tables)[i]
  {
    var upper := StyleSection(p, tables) + TraitsSection(p, tables) + PatternsSection(p, tables) + LinguisticSection(p, tables)
      + PersonalizationSection(p) + BehaviorSection(p, tables);
    var m1, m2, g := MetricsSection(p, t1), MetricsSection(p, t2), GuidelinesSection(p);
    SectionLengths(p, t1, tables);
    SectionLengths(p, t2, tables);
    assert |upper| == 34;
    assert ReportLines(p, t1, tables) == upper + m1 + g;
    assert ReportLines(p, t2, tables) == upper + m2 + g;
    assert m1[0] == m2[0] && m1[7] == m2[7];
    forall i | 0 <= i < |upper + m1 + g| && !(35 <= i <= 40)
      ensures (upper + m1 + g)[i] == (upper + m2 + g)[i]
    {
      if i < 34 {
      } else if i < 42 {
        assert (upper + m1 + g)[i] == m1[i - 34];
        assert (upper + m2 + g)[i] == m2[i - 34];
      }
    }
  }
}
