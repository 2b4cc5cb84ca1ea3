/** The tone profile: one closed enumeration per style dimension, the flat
    metrics record, and the profile itself. A profile holds its labels as
    strings, as a JavaScript object does at run time, so that the schema
    validators can be given labels outside every enumeration; the
    classifiers return the enumerations below and the assembler stores their
    names. */
module ToneProfileTypes {
  import opened JsNumber

  datatype Formality = Formal | SemiFormal | Casual | SlangHeavy {
    function Name(): string {
      match this
      case Formal => "formal"
      case SemiFormal => "semi-formal"
      case Casual => "casual"
      case SlangHeavy => "slang-heavy"
    }
  }

  datatype Politeness = Polite | Direct | Blunt | Neutral {
    function Name(): string {
      match this
      case Polite => "polite"
      case Direct => "direct"
      case Blunt => "blunt"
      case Neutral => "neutral"
    }
  }

  datatype Emotion = Positive | Negative | Neutral | Mixed | Sarcastic | Enthusiastic | Frustrated {
    function Name(): string {
      match this
      case Positive => "positive"
      case Negative => "negative"
      case Neutral => "neutral"
      case Mixed => "mixed"
      case Sarcastic => "sarcastic"
      case Enthusiastic => "enthusiastic"
      case Frustrated => "frustrated"
    }
  }

  datatype Conciseness = Concise | Detailed | Verbose | Balanced {
    function Name(): string {
      match this
      case Concise => "concise"
      case Detailed => "detailed"
      case Verbose => "verbose"
      case Balanced => "balanced"
    }
  }

  datatype Energy = HighEnergy | Moderate | LowEnergy | Flat | Normal {
    function Name(): string {
      match this
      case HighEnergy => "high-energy"
      case Moderate => "moderate"
      case LowEnergy => "low-energy"
      case Flat => "flat"
      case Normal => "normal"
    }
  }

  datatype Humor = None | Subtle | Moderate | Sarcastic | Playful | Heavy {
    function Name(): string {
      match this
      case None => "none"
      case Subtle => "subtle"
      case Moderate => "moderate"
      case Sarcastic => "sarcastic"
      case Playful => "playful"
      case Heavy => "heavy"
    }
  }

  datatype Technicality = Expert | Advanced | Intermediate | Basic | NonTechnical {
    function Name(): string {
      match this
      case Expert => "expert"
      case Advanced => "advanced"
      case Intermediate => "intermediate"
      case Basic => "basic"
      case NonTechnical => "non-technical"
    }
  }

  datatype Empathy = Low | Moderate | High | VeryHigh {
    function Name(): string {
      match this
      case Low => "low"
      case Moderate => "moderate"
      case High => "high"
      case VeryHigh => "very-high"
    }
  }

  datatype Confidence = Low | Moderate | High | Overconfident | Assertive | Confident | Tentative {
    function Name(): string {
      match this
      case Low => "low"
      case Moderate => "moderate"
      case High => "high"
      case Overconfident => "overconfident"
      case Assertive => "assertive"
      case Confident => "confident"
      case Tentative => "tentative"
    }
  }

  datatype QuestionStyle = Rhetorical | Clarifying | Probing | Leading | Direct | Indirect {
    function Name(): string {
      match this
      case Rhetorical => "rhetorical"
      case Clarifying => "clarifying"
      case Probing => "probing"
      case Leading => "leading"
      case Direct => "direct"
      case Indirect => "indirect"
    }
  }

  datatype GreetingStyle = Formal | Warm | Casual | None | Minimal {
    function Name(): string {
      match this
      case Formal => "formal"
      case Warm => "warm"
      case Casual => "casual"
      case None => "none"
      case Minimal => "minimal"
    }
  }

  datatype ClosingStyle = Formal | Warm | Abrupt | None | Casual {
    function Name(): string {
      match this
      case Formal => "formal"
      case Warm => "warm"
      case Abrupt => "abrupt"
      case None => "none"
      case Casual => "casual"
    }
  }

  datatype InterruptionStyle = Frequent | Moderate | Rare | Never {
    function Name(): string {
      match this
      case Frequent => "frequent"
      case Moderate => "moderate"
      case Rare => "rare"
      case Never => "never"
    }
  }

  datatype ResponsePattern = Quick | Deliberate | Thoughtful | Reactive | Spontaneous | Immediate {
    function Name(): string {
      match this
      case Quick => "quick"
      case Deliberate => "deliberate"
      case Thoughtful => "thoughtful"
      case Reactive => "reactive"
      case Spontaneous => "spontaneous"
      case Immediate => "immediate"
    }
  }

  datatype VocabularyLevel = Basic | Intermediate | Advanced | Sophisticated {
    function Name(): string {
      match this
      case Basic => "basic"
      case Intermediate => "intermediate"
      case Advanced => "advanced"
      case Sophisticated => "sophisticated"
    }
  }

  datatype SentenceComplexity = Simple | Moderate | Complex | Varied | Compound {
    function Name(): string {
      match this
      case Simple => "simple"
      case Moderate => "moderate"
      case Complex => "complex"
      case Varied => "varied"
      case Compound => "compound"
    }
  }

  datatype DiscourseMarkers = Minimal | Moderate | Excessive | Frequent {
    function Name(): string {
      match this
      case Minimal => "minimal"
      case Moderate => "moderate"
      case Excessive => "excessive"
      case Frequent => "frequent"
    }
  }

  datatype ConflictStyle = Avoidant | Accommodating | Competitive | Collaborative | Compromising {
    function Name(): string {
      match this
      case Avoidant => "avoidant"
      case Accommodating => "accommodating"
      case Competitive => "competitive"
      case Collaborative => "collaborative"
      case Compromising => "compromising"
    }
  }

  datatype FeedbackStyle = Direct | Constructive | Sandwich | Indirect | Gentle | Harsh {
    function Name(): string {
      match this
      case Direct => "direct"
      case Constructive => "constructive"
      case Sandwich => "sandwich"
      case Indirect => "indirect"
      case Gentle => "gentle"
      case Harsh => "harsh"
    }
  }

  // ----- each label name stands for one label -----

  lemma FormalityNameInjective(a: Formality, b: Formality)
    ensures a.Name() == b.Name() <==> a == b
  {
  }

  lemma PolitenessNameInjective(a: Politeness, b: Politeness)
    ensures a.Name() == b.Name() <==> a == b
  {
  }

  lemma EmotionNameInjective(a: Emotion, b: Emotion)
    ensures a.Name() == b.Name() <==> a == b
  {
  }

  lemma ConcisenessNameInjective(a: Conciseness, b: Conciseness)
    ensures a.Name() == b.Name() <==> a == b
  {
  }

  lemma EnergyNameInjective(a: Energy, b: Energy)
    ensures a.Name() == b.Name() <==> a == b
  {
  }

  lemma HumorNameInjective(a: Humor, b: Humor)
    ensures a.Name() == b.Name() <==> a == b
  {
  }

  lemma TechnicalityNameInjective(a: Technicality, b: Technicality)
    ensures a.Name() == b.Name() <==> a == b
  {
  }

  lemma EmpathyNameInjective(a: Empathy, b: Empathy)
    ensures a.Name() == b.Name() <==> a == b
  {
  }

  lemma ConfidenceNameInjective(a: Confidence, b: Confidence)
    ensures a.Name() == b.Name() <==> a == b
  {
  }

  lemma QuestionStyleNameInjective(a: QuestionStyle, b: QuestionStyle)
    ensures a.Name() == b.Name() <==> a == b
  {
  }

  lemma GreetingStyleNameInjective(a: GreetingStyle, b: GreetingStyle)
    ensures a.Name() == b.Name() <==> a == b
  {
  }

  lemma ClosingStyleNameInjective(a: ClosingStyle, b: ClosingStyle)
    ensures a.Name() == b.Name() <==> a == b
  {
  }

  lemma InterruptionStyleNameInjective(a: InterruptionStyle, b: InterruptionStyle)
    ensures a.Name() == b.Name() <==> a == b
  {
  }

  lemma ResponsePatternNameInjective(a: ResponsePattern, b: ResponsePattern)
    ensures a.Name() == b.Name() <==> a == b
  {
  }

  lemma VocabularyLevelNameInjective(a: VocabularyLevel, b: VocabularyLevel)
    ensures a.Name() == b.Name() <==> a == b
  {
  }

  lemma SentenceComplexityNameInjective(a: SentenceComplexity, b: SentenceComplexity)
    ensures a.Name() == b.Name() <==> a == b
  {
  }

  lemma DiscourseMarkersNameInjective(a: DiscourseMarkers, b: DiscourseMarkers)
    ensures a.Name() == b.Name() <==> a == b
  {
  }

  lemma ConflictStyleNameInjective(a: ConflictStyle, b: ConflictStyle)
    ensures a.Name() == b.Name() <==> a == b
  {
  }

  lemma FeedbackStyleNameInjective(a: FeedbackStyle, b: FeedbackStyle)
    ensures a.Name() == b.Name() <==> a == b
  {
  }

  /** The 27 numeric metrics. `tokenVariance` stands for the source's
      `stdDevTokens`, which is its square root. */
  datatype Metrics = Metrics(
    contractionRate: Num,
    slangRate: Num,
    emojiRate: Num,
    politeMarkerRate: Num,
    imperativeRate: Num,
    sentimentScore: Num,
    avgTokens: Num,
    tokenVariance: Num,
    exclamationRate: Num,
    capsRate: Num,
    questionRate: Num,
    interjectionRate: Num,
    repetitionRate: Num,
    vocabularyDiversity: Num,
    avgSentenceLength: Num,
    complexSentenceRate: Num,
    passiveVoiceRate: Num,
    firstPersonRate: Num,
    secondPersonRate: Num,
    thirdPersonRate: Num,
    uncertaintyMarkers: Num,
    confidenceMarkers: Num,
    humorIndicators: Num,
    technicalTermRate: Num,
    empathyMarkers: Num,
    timeMarkers: Num,
    spatialMarkers: Num)

  datatype ToneProfile = ToneProfile(
    // core communication style
    formality: string,
    politeness: string,
    emotion: string,
    conciseness: string,
    energy: string,
    // personality traits
    humor: string,
    technicality: string,
    empathy: string,
    confidence: string,
    // communication patterns
    questionStyle: string,
    greetingStyle: string,
    closingStyle: string,
    interruptionStyle: string,
    responsePattern: string,
    // linguistic characteristics
    vocabularyLevel: string,
    sentenceComplexity: string,
    discourseMarkers: string,
    // personalization elements
    signaturePhrases: seq<string>,
    commonWords: seq<string>,
    avoidedWords: seq<string>,
    communicationQuirks: seq<string>,
    // behavioral patterns
    conflictStyle: string,
    feedbackStyle: string,
    metrics: Metrics)
}
