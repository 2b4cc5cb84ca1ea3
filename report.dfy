/** The analyzer and the renderers together: which generated profiles each
    renderer turns into a report. The compiled renderer validates against
    the declared unions, so it accepts every label a classifier returns and
    rejects a generated profile only for its metrics. The TypeScript
    renderer validates against narrower label sets that leave out labels
    the classifiers return, so it throws on ordinary corpora. */
module ProfileReport {
  import opened JsNumber
  import opened Text
  import opened Patterns
  import opened ToneProfileTypes
  import opened Validation
  import opened LlmGenerator
  import opened DetailedMetrics
  import opened Utils
  import CommunicationStyle
  import Analyzer

  /** Every categorical label of a generated profile is admitted by the
      compiled validator. */
  lemma GeneratedLabelsAdmitted(messages: seq<string>, det: Detectors)
    ensures LabelsAdmitted(SUPERSET_SCHEMA, Analyzer.GenerateToneProfile(messages, det))
  {
    var p := Analyzer.GenerateToneProfile(messages, det);
    UnionNamesAdmitted();
    LabelsAdmittedByField(SUPERSET_SCHEMA, p);
  }

  /** The compiled renderer reports on a generated profile exactly when its
      metrics lie in their ranges. */
  lemma GeneratedProfileRendered(messages: seq<string>, det: Detectors, toFixed: Num -> string)
    ensures var p := Analyzer.GenerateToneProfile(messages, det);
      GenerateLLMToneProfile(p, toFixed).Generated? <==> MetricsInRange(p.metrics)
  {
    GeneratedLabelsAdmitted(messages, det);
    RenderedWhenLabelsAdmitted(Analyzer.GenerateToneProfile(messages, det), toFixed);
  }

  /** Rates that are NaN or +Infinity fail the proportion check of the
      contraction rate, so both renderers throw. */
  lemma UndefinedRatesNotRendered(p: ToneProfile, toFixed: Num -> string)
    requires MessageRatesUndefined(p.metrics)
    ensures GenerateLLMToneProfile(p, toFixed) == Thrown(INVALID_PROFILE_MESSAGE)
    ensures GenerateLLMToneProfileTs(p, toFixed) == Thrown(INVALID_PROFILE_MESSAGE)
  {
    assert !InRange(Metric(p.metrics, contractionRate), RangeOf(contractionRate));
  }

  /** Without any message the rates are NaN or +Infinity: both renderers
      throw. */
  lemma EmptyCorpusNotRendered(det: Detectors, toFixed: Num -> string)
    ensures var p := Analyzer.GenerateToneProfile([], det);
      && GenerateLLMToneProfile(p, toFixed) == Thrown(INVALID_PROFILE_MESSAGE)
      && GenerateLLMToneProfileTs(p, toFixed) == Thrown(INVALID_PROFILE_MESSAGE)
  {
    var empty: seq<string> := [];
    Analyzer.EmptyCorpusProfile(empty, det);
    UndefinedRatesNotRendered(Analyzer.GenerateToneProfile(empty, det), toFixed);
  }

  /** The energy classifier returns `high-energy`, `flat` or `normal`. */
  lemma GeneratedEnergy(messages: seq<string>, det: Detectors)
    ensures Analyzer.GenerateToneProfile(messages, det).energy in {"high-energy", "flat", "normal"}
  {
  }

  /** The TypeScript renderer reports on a generated profile only when its
      energy is `high-energy`: the narrow schema admits neither `flat` nor
      `normal`. */
  lemma TsRendererNeedsHighEnergy(messages: seq<string>, det: Detectors, toFixed: Num -> string)
    ensures var p := Analyzer.GenerateToneProfile(messages, det);
      GenerateLLMToneProfileTs(p, toFixed).Generated? ==> p.energy == "high-energy"
  {
    GeneratedEnergy(messages, det);
    TsRendererClassifierEnergy(Analyzer.GenerateToneProfile(messages, det), toFixed);
  }

  /** Of the energies the classifier gives, the TypeScript renderer
      reports only on `high-energy`. */
  lemma TsRendererClassifierEnergy(p: ToneProfile, toFixed: Num -> string)
    requires p.energy in {"high-energy", "flat", "normal"}
    ensures GenerateLLMToneProfileTs(p, toFixed).Generated? ==> p.energy == "high-energy"
  {
    if GenerateLLMToneProfileTs(p, toFixed).Generated? {
      TsRenderedEnergy(p, toFixed);
    }
  }

  /** A corpus in which at most one message in ten carries a polite marker
      and at most one in ten an imperative gets the politeness `neutral`. */
  lemma {:induction false} QuietCorpusNeutral(messages: seq<string>, det: Detectors)
    requires 10 * CountMatches(Join(messages, "\n"), det.polite) <= |messages|
    requires 10 * CountMatches(Join(messages, "\n"), det.imperative) <= |messages|
    ensures Analyzer.GenerateToneProfile(messages, det).politeness == "neutral"
  {
    var texts := Join(messages, "\n");
    var r := CommunicationStyle.AnalyzePoliteness(CountMatches(texts, det.polite), CountMatches(texts, det.imperative), |messages|);
    assert r.Neutral?;
  }

  /** The TypeScript validator does not admit `neutral`, so the TypeScript
      renderer throws on such a corpus, however its metrics look. */
  lemma {:induction false} TsRendererRejectsQuietCorpus(messages: seq<string>, det: Detectors, toFixed: Num -> string)
    requires 10 * CountMatches(Join(messages, "\n"), det.polite) <= |messages|
    requires 10 * CountMatches(Join(messages, "\n"), det.imperative) <= |messages|
    ensures var p := Analyzer.GenerateToneProfile(messages, det);
      && p.politeness == "neutral"
      && GenerateLLMToneProfileTs(p, toFixed) == Thrown(INVALID_PROFILE_MESSAGE)
  {
    QuietCorpusNeutral(messages, det);
    TsRendererRejectsNeutral(Analyzer.GenerateToneProfile(messages, det), toFixed);
  }
}
