/** The zod schemas that check a tone profile, `isValidToneProfile`,
    `validateToneProfile` and `createDefaultToneProfile`.

    The repository holds two copies that drifted apart: the compiled
    validator admits every label of the declared unions (the superset
    schema), while the TypeScript validator admits narrower label sets. Both
    check the same metric ranges and build the same default profile; here
    one schema-driven check is applied to either label table.

    zod reports one issue per failing field, in the order of the schema's
    keys; an issue is modelled by the field it names. */
module Validation {
  import opened JsNumber
  import opened ToneProfileTypes

  /** One key of a `Partial` object: absent, or present with a value. */
  datatype Override<T> = Keep | Replace(value: T)

  /** The categorical keys of the profile schema. */
  datatype LabelField =
    | formality | politeness | emotion | conciseness | energy
    | humor | technicality | empathy | confidence
    | questionStyle | greetingStyle | closingStyle | interruptionStyle | responsePattern
    | vocabularyLevel | sentenceComplexity | discourseMarkers
    | conflictStyle | feedbackStyle

  /** The keys of the metrics schema, with the range each one admits. */
  datatype MetricField =
    | contractionRate | slangRate | emojiRate | politeMarkerRate | imperativeRate
    | sentimentScore | avgTokens | stdDevTokens | exclamationRate | capsRate
    | questionRate | interjectionRate | repetitionRate | vocabularyDiversity
    | avgSentenceLength | complexSentenceRate | passiveVoiceRate
    | firstPersonRate | secondPersonRate | thirdPersonRate
    | uncertaintyMarkers | confidenceMarkers | humorIndicators | technicalTermRate
    | empathyMarkers | timeMarkers | spatialMarkers

  /** `z.number()`, `z.number().min(0)` and `z.number().min(0).max(1)`. */
  datatype Range = AnyNumber | NonNegative | Proportion

  /** One zod issue: the path of the field that failed. */
  datatype Issue = LabelIssue(labelField: LabelField) | MetricIssue(metricField: MetricField)

  /** What `validateToneProfile` returns: `success`, and the issues of the
      zod error when there is one. */
  datatype ValidationResult = ValidationResult(success: bool, error: seq<Issue>)

  /** The label set a schema admits for each categorical key. */
  datatype EnumSchema = EnumSchema(
    formality: set<string>,
    politeness: set<string>,
    emotion: set<string>,
    conciseness: set<string>,
    energy: set<string>,
    humor: set<string>,
    technicality: set<string>,
    empathy: set<string>,
    confidence: set<string>,
    questionStyle: set<string>,
    greetingStyle: set<string>,
    closingStyle: set<string>,
    interruptionStyle: set<string>,
    responsePattern: set<string>,
    vocabularyLevel: set<string>,
    sentenceComplexity: set<string>,
    discourseMarkers: set<string>,
    conflictStyle: set<string>,
    feedbackStyle: set<string>)

  /** The label sets of the compiled validator: those of the declared
      unions. */
  const SUPERSET_SCHEMA: EnumSchema := EnumSchema(
    formality := {"formal", "semi-formal", "casual", "slang-heavy"},
    politeness := {"polite", "direct", "blunt", "neutral"},
    emotion := {"positive", "negative", "neutral", "mixed", "sarcastic", "enthusiastic", "frustrated"},
    conciseness := {"concise", "detailed", "verbose", "balanced"},
    energy := {"high-energy", "moderate", "low-energy", "flat", "normal"},
    humor := {"none", "subtle", "moderate", "sarcastic", "playful", "heavy"},
    technicality := {"expert", "advanced", "intermediate", "basic", "non-technical"},
    empathy := {"low", "moderate", "high", "very-high"},
    confidence := {"low", "moderate", "high", "overconfident", "assertive", "confident", "tentative"},
    questionStyle := {"rhetorical", "clarifying", "probing", "leading", "direct", "indirect"},
    greetingStyle := {"formal", "warm", "casual", "none", "minimal"},
    closingStyle := {"formal", "warm", "abrupt", "none", "casual"},
    interruptionStyle := {"frequent", "moderate", "rare", "never"},
    responsePattern := {"quick", "deliberate", "thoughtful", "reactive", "spontaneous", "immediate"},
    vocabularyLevel := {"basic", "intermediate", "advanced", "sophisticated"},
    sentenceComplexity := {"simple", "moderate", "complex", "varied", "compound"},
    discourseMarkers := {"minimal", "moderate", "excessive", "frequent"},
    conflictStyle := {"avoidant", "accommodating", "competitive", "collaborative", "compromising"},
    feedbackStyle := {"direct", "constructive", "sandwich", "indirect", "gentle", "harsh"})

  /** The label sets of the TypeScript validator. Several of them leave out
      labels the classifiers return (politeness `neutral`, energy `normal`
      and `flat`, ...), and technicality admits two labels no union
      declares. */
  const NARROW_SCHEMA: EnumSchema := EnumSchema(
    formality := {"formal", "semi-formal", "casual", "slang-heavy"},
    politeness := {"polite", "direct", "blunt"},
    emotion := {"positive", "negative", "neutral", "mixed"},
    conciseness := {"concise", "detailed", "verbose"},
    energy := {"high-energy", "moderate", "low-energy"},
    humor := {"none", "subtle", "moderate", "sarcastic", "playful"},
    technicality := {"non-technical", "semi-technical", "highly-technical"},
    empathy := {"low", "moderate", "high"},
    confidence := {"low", "moderate", "high", "overconfident"},
    questionStyle := {"rhetorical", "clarifying", "probing", "leading"},
    greetingStyle := {"formal", "warm", "casual", "none"},
    closingStyle := {"formal", "warm", "abrupt", "none"},
    interruptionStyle := {"frequent", "moderate", "rare", "never"},
    responsePattern := {"quick", "deliberate", "thoughtful", "reactive"},
    vocabularyLevel := {"basic", "intermediate", "advanced", "sophisticated"},
    sentenceComplexity := {"simple", "moderate", "complex", "varied"},
    discourseMarkers := {"minimal", "moderate", "excessive"},
    conflictStyle := {"avoidant", "accommodating", "competitive", "collaborative", "compromising"},
    feedbackStyle := {"direct", "constructive", "sandwich", "indirect"})

  /** The categorical keys in the order the profile schema lists them. */
  const LABEL_FIELDS: seq<LabelField> := [formality, politeness, emotion, conciseness, energy,
    humor, technicality, empathy, confidence,
    questionStyle, greetingStyle, closingStyle, interruptionStyle, responsePattern,
    vocabularyLevel, sentenceComplexity, discourseMarkers,
    conflictStyle, feedbackStyle]

  /** The metric keys in the order the metrics schema lists them. */
  const METRIC_FIELDS: seq<MetricField> := [contractionRate, slangRate, emojiRate, politeMarkerRate,
    imperativeRate, sentimentScore, avgTokens, stdDevTokens, exclamationRate, capsRate,
    questionRate, interjectionRate, repetitionRate, vocabularyDiversity, avgSentenceLength,
    complexSentenceRate, passiveVoiceRate, firstPersonRate, secondPersonRate, thirdPersonRate,
    uncertaintyMarkers, confidenceMarkers, humorIndicators, technicalTermRate,
    empathyMarkers, timeMarkers, spatialMarkers]

  function Label(p: ToneProfile, f: LabelField): string {
    match f
    case formality => p.formality
    case politeness => p.politeness
    case emotion => p.emotion
    case conciseness => p.conciseness
    case energy => p.energy
    case humor => p.humor
    case technicality => p.technicality
    case empathy => p.empathy
    case confidence => p.confidence
    case questionStyle => p.questionStyle
    case greetingStyle => p.greetingStyle
    case closingStyle => p.closingStyle
    case interruptionStyle => p.interruptionStyle
    case responsePattern => p.responsePattern
    case vocabularyLevel => p.vocabularyLevel
    case sentenceComplexity => p.sentenceComplexity
    case discourseMarkers => p.discourseMarkers
    case conflictStyle => p.conflictStyle
    case feedbackStyle => p.feedbackStyle
  }

  function Admitted(schema: EnumSchema, f: LabelField): set<string> {
    match f
    case formality => schema.formality
    case politeness => schema.politeness
    case emotion => schema.emotion
    case conciseness => schema.conciseness
    case energy => schema.energy
    case humor => schema.humor
    case technicality => schema.technicality
    case empathy => schema.empathy
    case confidence => schema.confidence
    case questionStyle => schema.questionStyle
    case greetingStyle => schema.greetingStyle
    case closingStyle => schema.closingStyle
    case interruptionStyle => schema.interruptionStyle
    case responsePattern => schema.responsePattern
    case vocabularyLevel => schema.vocabularyLevel
    case sentenceComplexity => schema.sentenceComplexity
    case discourseMarkers => schema.discourseMarkers
    case conflictStyle => schema.conflictStyle
    case feedbackStyle => schema.feedbackStyle
  }

  /** The stored value of a metric key. The model keeps the variance where
      the source keeps `stdDevTokens`, its square root: both are NaN, or
      both non-negative, together. */
  function Metric(m: Metrics, f: MetricField): Num {
    match f
    case contractionRate => m.contractionRate
    case slangRate => m.slangRate
    case emojiRate => m.emojiRate
    case politeMarkerRate => m.politeMarkerRate
    case imperativeRate => m.imperativeRate
    case sentimentScore => m.sentimentScore
    case avgTokens => m.avgTokens
    case stdDevTokens => m.tokenVariance
    case exclamationRate => m.exclamationRate
    case capsRate => m.capsRate
    case questionRate => m.questionRate
    case interjectionRate => m.interjectionRate
    case repetitionRate => m.repetitionRate
    case vocabularyDiversity => m.vocabularyDiversity
    case avgSentenceLength => m.avgSentenceLength
    case complexSentenceRate => m.complexSentenceRate
    case passiveVoiceRate => m.passiveVoiceRate
    case firstPersonRate => m.firstPersonRate
    case secondPersonRate => m.secondPersonRate
    case thirdPersonRate => m.thirdPersonRate
    case uncertaintyMarkers => m.uncertaintyMarkers
    case confidenceMarkers => m.confidenceMarkers
    case humorIndicators => m.humorIndicators
    case technicalTermRate => m.technicalTermRate
    case empathyMarkers => m.empathyMarkers
    case timeMarkers => m.timeMarkers
    case spatialMarkers => m.spatialMarkers
  }

  /** The range each metric key admits; both validators agree on it. */
  function RangeOf(f: MetricField): Range {
    match f
    case sentimentScore => AnyNumber
    case avgTokens | stdDevTokens | exclamationRate | questionRate | interjectionRate | repetitionRate
      | avgSentenceLength | uncertaintyMarkers | confidenceMarkers | humorIndicators
      | technicalTermRate | empathyMarkers | timeMarkers | spatialMarkers => NonNegative
    case _ => Proportion
  }

  /** zod's number checks: NaN is no number at all; +Infinity passes a
      lower bound of 0 but no upper bound of 1. */
  predicate InRange(x: Num, r: Range) {
    match r
    case AnyNumber => !x.NaN?
    case NonNegative => x.PosInf? || (x.Finite? && x.value >= 0.0)
    case Proportion => x.Finite? && 0.0 <= x.value <= 1.0
  }

  /** The issues of the categorical keys `fields`, in their order. */
  function LabelIssues(schema: EnumSchema, p: ToneProfile, fields: seq<LabelField>): (r: seq<Issue>)
    ensures forall i :: 0 <= i < |r| ==> r[i].LabelIssue?
    ensures forall f :: LabelIssue(f) in r <==> f in fields && Label(p, f) !in Admitted(schema, f)
    ensures |r| <= |fields|
  {
    if fields == [] then []
    else
      var rest := LabelIssues(schema, p, fields[1..]);
      if Label(p, fields[0]) in Admitted(schema, fields[0]) then rest
      else [LabelIssue(fields[0])] + rest
  }

  /** The issues of the metric keys `fields`, in their order. */
  function MetricIssues(m: Metrics, fields: seq<MetricField>): (r: seq<Issue>)
    ensures forall i :: 0 <= i < |r| ==> r[i].MetricIssue?
    ensures forall f :: MetricIssue(f) in r <==> f in fields && !InRange(Metric(m, f), RangeOf(f))
    ensures |r| <= |fields|
  {
    if fields == [] then []
    else
      var rest := MetricIssues(m, fields[1..]);
      if InRange(Metric(m, fields[0]), RangeOf(fields[0])) then rest
      else [MetricIssue(fields[0])] + rest
  }

  /** Every categorical field holds a label of the schema. */
  predicate LabelsAdmitted(schema: EnumSchema, p: ToneProfile) {
    forall f: LabelField :: Label(p, f) in Admitted(schema, f)
  }

  /** Every metric lies in its range. */
  predicate MetricsInRange(m: Metrics) {
    forall f: MetricField :: InRange(Metric(m, f), RangeOf(f))
  }

  lemma AllLabelFieldsListed(f: LabelField)
    ensures f in LABEL_FIELDS
  {
  }

  lemma AllMetricFieldsListed(f: MetricField)
    ensures f in METRIC_FIELDS
  {
  }

  /** `ToneProfileSchema.safeParse(profile)` with a given label table: the
      issues of the categorical keys, then those of the metrics. The four
      personalization lists are sequences of strings by their type here, so
      they raise no issue. The result names exactly the fields that fail. */
  function SafeParse(schema: EnumSchema, p: ToneProfile): (issues: seq<Issue>)
    ensures forall f: LabelField :: LabelIssue(f) in issues <==> Label(p, f) !in Admitted(schema, f)
    ensures forall f: MetricField :: MetricIssue(f) in issues <==> !InRange(Metric(p.metrics, f), RangeOf(f))
    ensures issues == [] <==> LabelsAdmitted(schema, p) && MetricsInRange(p.metrics)
  {
    IssuesNameFailingFields(schema, p);
    LabelIssues(schema, p, LABEL_FIELDS) + MetricIssues(p.metrics, METRIC_FIELDS)
  }

  lemma IssuesNameFailingFields(schema: EnumSchema, p: ToneProfile)
    ensures var issues := LabelIssues(schema, p, LABEL_FIELDS) + MetricIssues(p.metrics, METRIC_FIELDS);
      && (forall f: LabelField :: LabelIssue(f) in issues <==> Label(p, f) !in Admitted(schema, f))
      && (forall f: MetricField :: MetricIssue(f) in issues <==> !InRange(Metric(p.metrics, f), RangeOf(f)))
      && (issues == [] <==> LabelsAdmitted(schema, p) && MetricsInRange(p.metrics))
  {
    var labels := LabelIssues(schema, p, LABEL_FIELDS);
    var metrics := MetricIssues(p.metrics, METRIC_FIELDS);
    forall f: LabelField ensures LabelIssue(f) in labels + metrics <==> Label(p, f) !in Admitted(schema, f) {
      AllLabelFieldsListed(f);
    }
    forall f: MetricField ensures MetricIssue(f) in labels + metrics <==> !InRange(Metric(p.metrics, f), RangeOf(f)) {
      AllMetricFieldsListed(f);
    }
    if labels + metrics != [] {
      var i := (labels + metrics)[0];
      assert i in labels + metrics;
    }
  }

  /** `validateToneProfile` of the compiled validator: success exactly when
      every label is one of the declared unions and every metric is in its
      range; otherwise the error names each failing field. */
  function ValidateToneProfile(p: ToneProfile): (r: ValidationResult)
    ensures r.success <==> r.error == []
    ensures r.success <==> LabelsAdmitted(SUPERSET_SCHEMA, p) && MetricsInRange(p.metrics)
    ensures forall f: LabelField :: LabelIssue(f) in r.error <==> Label(p, f) !in Admitted(SUPERSET_SCHEMA, f)
    ensures forall f: MetricField :: MetricIssue(f) in r.error <==> !InRange(Metric(p.metrics, f), RangeOf(f))
  {
    var issues := SafeParse(SUPERSET_SCHEMA, p);
    if issues != [] then ValidationResult(false, issues) else ValidationResult(true, [])
  }

  /** `isValidToneProfile` of the compiled validator: the `success` of the
      same parse. */
  predicate IsValidToneProfile(p: ToneProfile)
    ensures IsValidToneProfile(p) <==> ValidateToneProfile(p).success
  {
    SafeParse(SUPERSET_SCHEMA, p) == []
  }

  /** `validateToneProfile` of the TypeScript validator: the same checks
      with the narrow label sets. */
  function ValidateToneProfileTs(p: ToneProfile): (r: ValidationResult)
    ensures r.success <==> r.error == []
    ensures r.success <==> LabelsAdmitted(NARROW_SCHEMA, p) && MetricsInRange(p.metrics)
    ensures forall f: LabelField :: LabelIssue(f) in r.error <==> Label(p, f) !in Admitted(NARROW_SCHEMA, f)
    ensures forall f: MetricField :: MetricIssue(f) in r.error <==> !InRange(Metric(p.metrics, f), RangeOf(f))
  {
    var issues := SafeParse(NARROW_SCHEMA, p);
    if issues != [] then ValidationResult(false, issues) else ValidationResult(true, [])
  }

  /** `isValidToneProfile` of the TypeScript validator. */
  predicate IsValidToneProfileTs(p: ToneProfile)
    ensures IsValidToneProfileTs(p) <==> ValidateToneProfileTs(p).success
  {
    SafeParse(NARROW_SCHEMA, p) == []
  }

  // ----- the default profile -----

  const DEFAULT_METRICS: Metrics := Metrics(
    contractionRate := Finite(0.5),
    slangRate := Finite(0.0),
    emojiRate := Finite(0.1),
    politeMarkerRate := Finite(0.5),
    imperativeRate := Finite(0.3),
    sentimentScore := Finite(0.0),
    avgTokens := Finite(10.0),
    tokenVariance := Finite(25.0),  // stdDevTokens: 5
    exclamationRate := Finite(0.1),
    capsRate := Finite(0.05),
    questionRate := Finite(0.2),
    interjectionRate := Finite(0.1),
    repetitionRate := Finite(0.0),
    vocabularyDiversity := Finite(0.7),
    avgSentenceLength := Finite(12.0),
    complexSentenceRate := Finite(0.3),
    passiveVoiceRate := Finite(0.2),
    firstPersonRate := Finite(0.5),
    secondPersonRate := Finite(0.3),
    thirdPersonRate := Finite(0.2),
    uncertaintyMarkers := Finite(0.0),
    confidenceMarkers := Finite(0.0),
    humorIndicators := Finite(0.0),
    technicalTermRate := Finite(0.0),
    empathyMarkers := Finite(0.0),
    timeMarkers := Finite(0.0),
    spatialMarkers := Finite(0.0))

  const DEFAULT_PROFILE: ToneProfile := ToneProfile(
    formality := "semi-formal",
    politeness := "direct",
    emotion := "neutral",
    conciseness := "concise",
    energy := "moderate",
    humor := "none",
    technicality := "non-technical",
    empathy := "moderate",
    confidence := "moderate",
    questionStyle := "clarifying",
    greetingStyle := "casual",
    closingStyle := "none",
    interruptionStyle := "moderate",
    responsePattern := "deliberate",
    vocabularyLevel := "intermediate",
    sentenceComplexity := "moderate",
    discourseMarkers := "moderate",
    signaturePhrases := [],
    commonWords := [],
    avoidedWords := [],
    communicationQuirks := [],
    conflictStyle := "collaborative",
    feedbackStyle := "constructive",
    metrics := DEFAULT_METRICS)

  /** A `Partial<ToneProfile>`: each key present or absent. The metrics
      record is one key, replaced as a whole. */
  datatype Overrides = Overrides(
    formality: Override<string>,
    politeness: Override<string>,
    emotion: Override<string>,
    conciseness: Override<string>,
    energy: Override<string>,
    humor: Override<string>,
    technicality: Override<string>,
    empathy: Override<string>,
    confidence: Override<string>,
    questionStyle: Override<string>,
    greetingStyle: Override<string>,
    closingStyle: Override<string>,
    interruptionStyle: Override<string>,
    responsePattern: Override<string>,
    vocabularyLevel: Override<string>,
    sentenceComplexity: Override<string>,
    discourseMarkers: Override<string>,
    signaturePhrases: Override<seq<string>>,
    commonWords: Override<seq<string>>,
    avoidedWords: Override<seq<string>>,
    communicationQuirks: Override<seq<string>>,
    conflictStyle: Override<string>,
    feedbackStyle: Override<string>,
    metrics: Override<Metrics>)

  /** The default argument `{}`. */
  const NO_OVERRIDES: Overrides := Overrides(Keep, Keep, Keep, Keep, Keep, Keep, Keep, Keep, Keep, Keep,
    Keep, Keep, Keep, Keep, Keep, Keep, Keep, Keep, Keep, Keep, Keep, Keep, Keep, Keep)

  function OverrideOf(o: Overrides, f: LabelField): Override<string> {
    match f
    case formality => o.formality
    case politeness => o.politeness
    case emotion => o.emotion
    case conciseness => o.conciseness
    case energy => o.energy
    case humor => o.humor
    case technicality => o.technicality
    case empathy => o.empathy
    case confidence => o.confidence
    case questionStyle => o.questionStyle
    case greetingStyle => o.greetingStyle
    case closingStyle => o.closingStyle
    case interruptionStyle => o.interruptionStyle
    case responsePattern => o.responsePattern
    case vocabularyLevel => o.vocabularyLevel
    case sentenceComplexity => o.sentenceComplexity
    case discourseMarkers => o.discourseMarkers
    case conflictStyle => o.conflictStyle
    case feedbackStyle => o.feedbackStyle
  }

  function Pick<T>(o: Override<T>, default: T): T {
    match o
    case Replace(v) => v
    case Keep => default
  }

  /** `createDefaultToneProfile(overrides)`: `{ ...defaultProfile,
      ...overrides }`. A key the overrides carry replaces the default; every
      other key keeps its default. */
  function CreateDefaultToneProfile(o: Overrides): (p: ToneProfile)
    ensures p.signaturePhrases == Pick(o.signaturePhrases, []) && p.commonWords == Pick(o.commonWords, [])
    ensures p.avoidedWords == Pick(o.avoidedWords, []) && p.communicationQuirks == Pick(o.communicationQuirks, [])
    ensures p.metrics == Pick(o.metrics, DEFAULT_METRICS)
  {
    ToneProfile(
      formality := Pick(o.formality, DEFAULT_PROFILE.formality),
      politeness := Pick(o.politeness, DEFAULT_PROFILE.politeness),
      emotion := Pick(o.emotion, DEFAULT_PROFILE.emotion),
      conciseness := Pick(o.conciseness, DEFAULT_PROFILE.conciseness),
      energy := Pick(o.energy, DEFAULT_PROFILE.energy),
      humor := Pick(o.humor, DEFAULT_PROFILE.humor),
      technicality := Pick(o.technicality, DEFAULT_PROFILE.technicality),
      empathy := Pick(o.empathy, DEFAULT_PROFILE.empathy),
      confidence := Pick(o.confidence, DEFAULT_PROFILE.confidence),
      questionStyle := Pick(o.questionStyle, DEFAULT_PROFILE.questionStyle),
      greetingStyle := Pick(o.greetingStyle, DEFAULT_PROFILE.greetingStyle),
      closingStyle := Pick(o.closingStyle, DEFAULT_PROFILE.closingStyle),
      interruptionStyle := Pick(o.interruptionStyle, DEFAULT_PROFILE.interruptionStyle),
      responsePattern := Pick(o.responsePattern, DEFAULT_PROFILE.responsePattern),
      vocabularyLevel := Pick(o.vocabularyLevel, DEFAULT_PROFILE.vocabularyLevel),
      sentenceComplexity := Pick(o.sentenceComplexity, DEFAULT_PROFILE.sentenceComplexity),
      discourseMarkers := Pick(o.discourseMarkers, DEFAULT_PROFILE.discourseMarkers),
      signaturePhrases := Pick(o.signaturePhrases, DEFAULT_PROFILE.signaturePhrases),
      commonWords := Pick(o.commonWords, DEFAULT_PROFILE.commonWords),
      avoidedWords := Pick(o.avoidedWords, DEFAULT_PROFILE.avoidedWords),
      communicationQuirks := Pick(o.communicationQuirks, DEFAULT_PROFILE.communicationQuirks),
      conflictStyle := Pick(o.conflictStyle, DEFAULT_PROFILE.conflictStyle),
      feedbackStyle := Pick(o.feedbackStyle, DEFAULT_PROFILE.feedbackStyle),
      metrics := Pick(o.metrics, DEFAULT_PROFILE.metrics))
  }

  /** Each categorical key of the merged profile is the override when one
      is given and the default otherwise. */
  lemma MergedLabel(o: Overrides, f: LabelField)
    ensures Label(CreateDefaultToneProfile(o), f) == Pick(OverrideOf(o, f), Label(DEFAULT_PROFILE, f))
  {
  }

  // ----- properties of the schemas -----

  /** Without overrides the merge is the default profile itself. */
  lemma NoOverridesGiveDefault()
    ensures CreateDefaultToneProfile(NO_OVERRIDES) == DEFAULT_PROFILE
  {
  }

  lemma DefaultMetricInRange(f: MetricField)
    ensures InRange(Metric(DEFAULT_METRICS, f), RangeOf(f))
  {
  }

  lemma DefaultLabelAdmitted(f: LabelField)
    ensures Label(DEFAULT_PROFILE, f) in Admitted(SUPERSET_SCHEMA, f)
    ensures Label(DEFAULT_PROFILE, f) in Admitted(NARROW_SCHEMA, f)
  {
  }

  /** The default profile passes the compiled validator and the TypeScript
      validator. */
  lemma DefaultProfileValid()
    ensures ValidateToneProfile(CreateDefaultToneProfile(NO_OVERRIDES)).success
    ensures ValidateToneProfileTs(CreateDefaultToneProfile(NO_OVERRIDES)).success
  {
    NoOverridesGiveDefault();
    forall f: MetricField ensures InRange(Metric(DEFAULT_METRICS, f), RangeOf(f)) {
      DefaultMetricInRange(f);
    }
    forall f: LabelField
      ensures Label(DEFAULT_PROFILE, f) in Admitted(SUPERSET_SCHEMA, f)
      ensures Label(DEFAULT_PROFILE, f) in Admitted(NARROW_SCHEMA, f)
    {
      DefaultLabelAdmitted(f);
    }
  }

  /** Every label the TypeScript validator admits is admitted by the
      compiled one, except the two technicality labels no union declares. */
  lemma NarrowWithinSuperset(f: LabelField, s: string)
    requires s in Admitted(NARROW_SCHEMA, f)
    requires !(f == technicality && s in {"semi-technical", "highly-technical"})
    ensures s in Admitted(SUPERSET_SCHEMA, f)
  {
  }

  /** A profile whose labels the narrow schema admits has labels the
      superset admits too, unless its technicality is one of the two labels
      only the narrow schema lists. */
  lemma NarrowAdmittedWithinSuperset(p: ToneProfile)
    requires LabelsAdmitted(NARROW_SCHEMA, p)
    requires p.technicality != "semi-technical" && p.technicality != "highly-technical"
    ensures LabelsAdmitted(SUPERSET_SCHEMA, p)
  {
    forall f: LabelField
      ensures Label(p, f) in Admitted(SUPERSET_SCHEMA, f)
    {
      if f == technicality {
        assert Label(p, f) == p.technicality;
      }
      NarrowWithinSuperset(f, Label(p, f));
    }
  }

  /** The compiled validator rejects the two technicality labels only the
      narrow schema lists. */
  lemma SupersetRejectsTechnicality(p: ToneProfile)
    requires p.technicality == "semi-technical" || p.technicality == "highly-technical"
    ensures !LabelsAdmitted(SUPERSET_SCHEMA, p)
    ensures !ValidateToneProfile(p).success
  {
    assert Label(p, technicality) == p.technicality;
    assert p.technicality !in SUPERSET_SCHEMA.technicality;
  }

  /** The labels are admitted when each field's label is, one by one. */
  lemma LabelsAdmittedByField(schema: EnumSchema, p: ToneProfile)
    requires p.formality in schema.formality
    requires p.politeness in schema.politeness
    requires p.emotion in schema.emotion
    requires p.conciseness in schema.conciseness
    requires p.energy in schema.energy
    requires p.humor in schema.humor
    requires p.technicality in schema.technicality
    requires p.empathy in schema.empathy
    requires p.confidence in schema.confidence
    requires p.questionStyle in schema.questionStyle
    requires p.greetingStyle in schema.greetingStyle
    requires p.closingStyle in schema.closingStyle
    requires p.interruptionStyle in schema.interruptionStyle
    requires p.responsePattern in schema.responsePattern
    requires p.vocabularyLevel in schema.vocabularyLevel
    requires p.sentenceComplexity in schema.sentenceComplexity
    requires p.discourseMarkers in schema.discourseMarkers
    requires p.conflictStyle in schema.conflictStyle
    requires p.feedbackStyle in schema.feedbackStyle
    ensures LabelsAdmitted(schema, p)
  {
    forall f: LabelField
      ensures Label(p, f) in Admitted(schema, f)
    {
    }
  }

  /** The compiled validator admits the name of every member of every
      union, which is every label a classifier can return. */
  lemma UnionNamesAdmitted()
    ensures forall x: Formality :: x.Name() in SUPERSET_SCHEMA.formality
    ensures forall x: Politeness :: x.Name() in SUPERSET_SCHEMA.politeness
    ensures forall x: Emotion :: x.Name() in SUPERSET_SCHEMA.emotion
    ensures forall x: Conciseness :: x.Name() in SUPERSET_SCHEMA.conciseness
    ensures forall x: Energy :: x.Name() in SUPERSET_SCHEMA.energy
    ensures forall x: Humor :: x.Name() in SUPERSET_SCHEMA.humor
    ensures forall x: Technicality :: x.Name() in SUPERSET_SCHEMA.technicality
    ensures forall x: Empathy :: x.Name() in SUPERSET_SCHEMA.empathy
    ensures forall x: Confidence :: x.Name() in SUPERSET_SCHEMA.confidence
    ensures forall x: QuestionStyle :: x.Name() in SUPERSET_SCHEMA.questionStyle
    ensures forall x: GreetingStyle :: x.Name() in SUPERSET_SCHEMA.greetingStyle
    ensures forall x: ClosingStyle :: x.Name() in SUPERSET_SCHEMA.closingStyle
    ensures forall x: InterruptionStyle :: x.Name() in SUPERSET_SCHEMA.interruptionStyle
    ensures forall x: ResponsePattern :: x.Name() in SUPERSET_SCHEMA.responsePattern
    ensures forall x: VocabularyLevel :: x.Name() in SUPERSET_SCHEMA.vocabularyLevel
    ensures forall x: SentenceComplexity :: x.Name() in SUPERSET_SCHEMA.sentenceComplexity
    ensures forall x: DiscourseMarkers :: x.Name() in SUPERSET_SCHEMA.discourseMarkers
    ensures forall x: ConflictStyle :: x.Name() in SUPERSET_SCHEMA.conflictStyle
    ensures forall x: FeedbackStyle :: x.Name() in SUPERSET_SCHEMA.feedbackStyle
  {
  }

  /** The TypeScript validator admits three energies. */
  lemma NarrowAdmittedEnergy(p: ToneProfile)
    requires LabelsAdmitted(NARROW_SCHEMA, p)
    ensures p.energy in {"high-energy", "moderate", "low-energy"}
  {
    assert Label(p, energy) == p.energy;
    assert Label(p, energy) in Admitted(NARROW_SCHEMA, energy);
  }

  /** The TypeScript validator rejects the politeness `neutral` that the
      classifiers return, naming the field. */
  lemma NarrowRejectsNeutralPoliteness(p: ToneProfile)
    requires p.politeness == "neutral"
    ensures LabelIssue(politeness) in ValidateToneProfileTs(p).error
    ensures !ValidateToneProfileTs(p).success
  {
    assert Label(p, politeness) == "neutral";
    assert "neutral" !in NARROW_SCHEMA.politeness;
  }

  /** The TypeScript validator rejects the energy `normal` that the
      classifiers return, naming the field. */
  lemma NarrowRejectsNormalEnergy(p: ToneProfile)
    requires p.energy == "normal"
    ensures LabelIssue(energy) in ValidateToneProfileTs(p).error
    ensures !ValidateToneProfileTs(p).success
  {
    assert Label(p, energy) == "normal";
    assert "normal" !in NARROW_SCHEMA.energy;
  }

  /** A contraction rate above 1 (more contractions than messages) fails
      both validators, although the metrics divide by the message count. */
  lemma ContractionRateAboveOneRejected(p: ToneProfile)
    requires p.metrics.contractionRate.PosInf? || (p.metrics.contractionRate.Finite? && p.metrics.contractionRate.value > 1.0)
    ensures !ValidateToneProfile(p).success && !ValidateToneProfileTs(p).success
    ensures MetricIssue(contractionRate) in ValidateToneProfile(p).error
  {
  }

  /** A label outside every enumeration, such as politeness `unknown`, is
      reported against its own field. */
  lemma UnknownLabelRejected(p: ToneProfile)
    requires p.politeness == "unknown"
    ensures !ValidateToneProfile(p).success
    ensures LabelIssue(politeness) in ValidateToneProfile(p).error
  {
    assert Label(p, politeness) == "unknown";
    assert "unknown" !in SUPERSET_SCHEMA.politeness;
  }

  /** Overriding one field of the default profile with a label outside its
      enumeration makes the result fail on that field and on no other. */
  lemma OverrideReportedAlone(s: string)
    requires s !in SUPERSET_SCHEMA.politeness
    ensures var p := CreateDefaultToneProfile(NO_OVERRIDES.(politeness := Replace(s)));
      && !ValidateToneProfile(p).success
      && forall i :: i in ValidateToneProfile(p).error ==> i == LabelIssue(politeness)
  {
    var o := NO_OVERRIDES.(politeness := Replace(s));
    var p := CreateDefaultToneProfile(o);
    assert p.metrics == DEFAULT_METRICS;
    forall f: MetricField ensures InRange(Metric(p.metrics, f), RangeOf(f)) {
      DefaultMetricInRange(f);
    }
    forall f: LabelField | f != politeness ensures Label(p, f) in Admitted(SUPERSET_SCHEMA, f) {
      MergedLabel(o, f);
      DefaultLabelAdmitted(f);
    }
    assert Label(p, politeness) == s;
  }

}
