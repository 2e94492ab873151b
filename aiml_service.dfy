/**
 * The multi-model ensemble: each model's reply is reduced to a result record,
 * and the results of all models are combined into one ensemble decision
 * (mean probability, mean confidence, pooled risk factors, agreement level).
 */
module AimlService {
  import opened Wrappers
  import opened PyBuiltins

  // ---------------------------------------------------------------------
  // Per-model results
  // ---------------------------------------------------------------------

  /**
   * One model's result dictionary. Every key may be missing. A result with an
   * "error" key is a failed model, whatever else it holds.
   */
  datatype ModelResult = ModelResult(
    model: Option<string>,
    error: Option<string>,
    fraudProbability: Option<real>,
    confidence: Option<real>,
    riskFactors: Option<seq<string>>,
    rawResponse: Option<string>)

  /** One entry of the `{model name: result}` dictionary, in insertion order. */
  datatype ModelEntry = ModelEntry(name: string, result: ModelResult)

  predicate Succeeded(e: ModelEntry) {
    e.result.error.None?
  }

  /** The probability a surviving model contributes; 0.5 when it gave none. */
  function ProbabilityOf(e: ModelEntry): real {
    e.result.fraudProbability.GetOr(0.5)
  }

  /** The confidence a surviving model contributes; 0.7 when it gave none. */
  function ConfidenceOf(e: ModelEntry): real {
    e.result.confidence.GetOr(0.7)
  }

  function RiskFactorsOf(e: ModelEntry): seq<string> {
    e.result.riskFactors.GetOr([])
  }

  /** The probabilities of the models that did not fail, in dictionary order. */
  function Probabilities(rs: seq<ModelEntry>): seq<real> {
    if rs == [] then []
    else
      var e := rs[|rs| - 1];
      Probabilities(rs[..|rs| - 1]) + if Succeeded(e) then [ProbabilityOf(e)] else []
  }

  /** The confidences of the models that did not fail, in dictionary order. */
  function Confidences(rs: seq<ModelEntry>): seq<real> {
    if rs == [] then []
    else
      var e := rs[|rs| - 1];
      Confidences(rs[..|rs| - 1]) + if Succeeded(e) then [ConfidenceOf(e)] else []
  }

  /** The risk factors of the models that did not fail, concatenated. */
  function RiskFactorPool(rs: seq<ModelEntry>): seq<string> {
    if rs == [] then []
    else
      var e := rs[|rs| - 1];
      RiskFactorPool(rs[..|rs| - 1]) + if Succeeded(e) then RiskFactorsOf(e) else []
  }

  /** The dictionary's keys, failed models included. */
  function ModelNames(rs: seq<ModelEntry>): (names: seq<string>)
    ensures |names| == |rs|
    ensures forall i :: 0 <= i < |rs| ==> names[i] == rs[i].name
  {
    if rs == [] then [] else ModelNames(rs[..|rs| - 1]) + [rs[|rs| - 1].name]
  }

  /** Probabilities and confidences are collected together, one per surviving model. */
  lemma {:induction false} SurvivorCounts(rs: seq<ModelEntry>)
    ensures |Probabilities(rs)| == |Confidences(rs)|
  {
    if rs != [] {
      SurvivorCounts(rs[..|rs| - 1]);
    }
  }

  /** Nothing is collected exactly when every model failed. */
  lemma {:induction false} NoSurvivors(rs: seq<ModelEntry>)
    ensures Probabilities(rs) == [] <==> forall i :: 0 <= i < |rs| ==> !Succeeded(rs[i])
  {
    if rs != [] {
      var init, last := rs[..|rs| - 1], rs[|rs| - 1];
      NoSurvivors(init);
      if Succeeded(last) {
        assert |Probabilities(rs)| > 0;
      } else {
        assert Probabilities(rs) == Probabilities(init);
        assert forall i :: 0 <= i < |init| ==> init[i] == rs[i];
      }
    }
  }

  /** Collecting over a concatenation collects over each part. */
  lemma {:induction false} CollectAppend(a: seq<ModelEntry>, b: seq<ModelEntry>)
    ensures Probabilities(a + b) == Probabilities(a) + Probabilities(b)
    ensures Confidences(a + b) == Confidences(a) + Confidences(b)
    ensures RiskFactorPool(a + b) == RiskFactorPool(a) + RiskFactorPool(b)
  {
    if b != [] {
      var b' := b[..|b| - 1];
      assert (a + b)[..|a + b| - 1] == a + b';
      CollectAppend(a, b');
    } else {
      assert a + b == a;
    }
  }

  /** A model result with an "error" key contributes nothing to the ensemble. */
  lemma FailedModelAddsNothing(rs: seq<ModelEntry>, i: nat)
    requires i < |rs| && !Succeeded(rs[i])
    ensures Probabilities(rs) == Probabilities(rs[..i] + rs[i + 1..])
    ensures Confidences(rs) == Confidences(rs[..i] + rs[i + 1..])
    ensures RiskFactorPool(rs) == RiskFactorPool(rs[..i] + rs[i + 1..])
  {
    var before, after := rs[..i], rs[i + 1..];
    var upTo := before + [rs[i]];
    assert rs == upTo + after;
    assert upTo[..|upTo| - 1] == before;
    assert Probabilities(upTo) == Probabilities(before);
    assert Confidences(upTo) == Confidences(before);
    assert RiskFactorPool(upTo) == RiskFactorPool(before);
    CollectAppend(upTo, after);
    CollectAppend(before, after);
  }

  /** A risk factor is pooled exactly when some surviving model reported it. */
  lemma {:induction false} RiskFactorMembership(rs: seq<ModelEntry>, f: string)
    ensures f in RiskFactorPool(rs) <==>
            exists i :: 0 <= i < |rs| && Succeeded(rs[i]) && f in RiskFactorsOf(rs[i])
  {
    if rs != [] {
      var init := rs[..|rs| - 1];
      RiskFactorMembership(init, f);
      assert forall i :: 0 <= i < |init| ==> init[i] == rs[i];
      if f in RiskFactorPool(rs) && f !in RiskFactorPool(init) {
        assert Succeeded(rs[|rs| - 1]) && f in RiskFactorsOf(rs[|rs| - 1]);
      }
    }
  }

  /** When every reported probability is in [0, 1], so is every collected one. */
  lemma {:induction false} ProbabilitiesInUnitRange(rs: seq<ModelEntry>)
    requires forall i :: 0 <= i < |rs| && rs[i].result.fraudProbability.Some? ==>
               0.0 <= rs[i].result.fraudProbability.value <= 1.0
    ensures forall k :: 0 <= k < |Probabilities(rs)| ==> 0.0 <= Probabilities(rs)[k] <= 1.0
  {
    if rs != [] {
      var init := rs[..|rs| - 1];
      assert forall i :: 0 <= i < |init| ==> init[i] == rs[i];
      ProbabilitiesInUnitRange(init);
    }
  }

  // ---------------------------------------------------------------------
  // Agreement
  // ---------------------------------------------------------------------

  datatype Agreement = Unknown | High | Medium | Low

  /** The sum of squared deviations of `xs` from `m`. */
  function SquaredDeviations(xs: seq<real>, m: real): (r: real)
    ensures r >= 0.0
  {
    if xs == [] then 0.0
    else
      var d := xs[|xs| - 1] - m;
      SquaredDeviations(xs[..|xs| - 1], m) + d * d
  }

  /** The population variance. */
  function Variance(xs: seq<real>): real
    requires |xs| > 0
  {
    SquaredDeviations(xs, Mean(xs)) / (|xs| as real)
  }

  /**
   * How closely the models agree: "unknown" with no probabilities, else
   * "high" below variance 0.01, "medium" below 0.05, "low" otherwise.
   */
  function CalculateAgreement(probabilities: seq<real>): (a: Agreement)
    ensures a == Unknown <==> probabilities == []
    ensures probabilities != [] ==>
              && (a == High <==> Variance(probabilities) < 0.01)
              && (a == Medium <==> 0.01 <= Variance(probabilities) < 0.05)
              && (a == Low <==> 0.05 <= Variance(probabilities))
  {
    if probabilities == [] then Unknown
    else
      var v := Variance(probabilities);
      if v < 0.01 then High else if v < 0.05 then Medium else Low
  }

  lemma {:induction false} NoDeviationFromConstant(xs: seq<real>, v: real)
    requires forall i :: 0 <= i < |xs| ==> xs[i] == v
    ensures SquaredDeviations(xs, v) == 0.0
  {
    if xs != [] {
      NoDeviationFromConstant(xs[..|xs| - 1], v);
    }
  }

  /** Models that all report the same probability agree highly. */
  lemma IdenticalProbabilitiesAgreeHighly(probabilities: seq<real>, v: real)
    requires |probabilities| > 0
    requires forall i :: 0 <= i < |probabilities| ==> probabilities[i] == v
    ensures CalculateAgreement(probabilities) == High
  {
    MeanOfConstant(probabilities, v);
    NoDeviationFromConstant(probabilities, v);
  }

  // ---------------------------------------------------------------------
  // Ensemble decision
  // ---------------------------------------------------------------------

  datatype EnsembleDecision = EnsembleDecision(
    fraudProbability: real,
    confidence: real,
    isFraudulent: bool,
    riskFactors: seq<string>,
    modelsUsed: seq<string>,
    agreementLevel: Agreement)

  /** `{"error": "All models failed"}`, or the decision with the per-model results. */
  datatype EnsembleOutcome =
    | AllModelsFailed(error: string)
    | Ensemble(ensembleDecision: EnsembleDecision, individualModels: seq<ModelEntry>)

  /** The error text of `AllModelsFailed`. */
  const AllModelsFailedMessage: string := "All models failed"

  /**
   * Combines the per-model results: failed models are skipped, the rest are
   * averaged, and their risk factors are pooled without duplicates.
   */
  method MakeEnsembleDecision(modelResults: seq<ModelEntry>) returns (out: EnsembleOutcome)
    ensures out.AllModelsFailed? <==> forall i :: 0 <= i < |modelResults| ==> !Succeeded(modelResults[i])
    ensures out.AllModelsFailed? ==> out.error == AllModelsFailedMessage
    ensures out.Ensemble? ==>
              var d := out.ensembleDecision;
              && |Probabilities(modelResults)| > 0
              && d.fraudProbability == Mean(Probabilities(modelResults))
              && |Confidences(modelResults)| == |Probabilities(modelResults)|
              && d.confidence == Mean(Confidences(modelResults))
              && d.isFraudulent == (d.fraudProbability > 0.7)
              && NoDuplicates(d.riskFactors)
              && Elements(d.riskFactors) == Elements(RiskFactorPool(modelResults))
              && d.modelsUsed == ModelNames(modelResults)
              && d.agreementLevel == CalculateAgreement(Probabilities(modelResults))
              && out.individualModels == modelResults
  {
    var fraudProbs: seq<real> := [];
    var confidenceScores: seq<real> := [];
    var allRiskFactors: seq<string> := [];
    for i := 0 to |modelResults|
      invariant fraudProbs == Probabilities(modelResults[..i])
      invariant confidenceScores == Confidences(modelResults[..i])
      invariant allRiskFactors == RiskFactorPool(modelResults[..i])
    {
      assert modelResults[..i + 1][..i] == modelResults[..i];
      var result := modelResults[i].result;
      if result.error.None? {
        fraudProbs := fraudProbs + [result.fraudProbability.GetOr(0.5)];
        confidenceScores := confidenceScores + [result.confidence.GetOr(0.7)];
        allRiskFactors := allRiskFactors + result.riskFactors.GetOr([]);
      }
    }
    assert modelResults[..|modelResults|] == modelResults;
    SurvivorCounts(modelResults);
    NoSurvivors(modelResults);
    if fraudProbs == [] {
      return AllModelsFailed(AllModelsFailedMessage);
    }
    var avgFraudProb := Sum(fraudProbs) / (|fraudProbs| as real);
    var avgConfidence := Sum(confidenceScores) / (|confidenceScores| as real);
    var uniqueRiskFactors := Dedup(allRiskFactors);
    var decision := EnsembleDecision(
      avgFraudProb, avgConfidence, avgFraudProb > 0.7, uniqueRiskFactors,
      ModelNames(modelResults), CalculateAgreement(fraudProbs));
    out := Ensemble(decision, modelResults);
  }

  /** The ensemble's mean probability stays in [0, 1] when every model's does. */
  lemma EnsembleProbabilityInUnitRange(rs: seq<ModelEntry>)
    requires |Probabilities(rs)| > 0
    requires forall i :: 0 <= i < |rs| && rs[i].result.fraudProbability.Some? ==>
               0.0 <= rs[i].result.fraudProbability.value <= 1.0
    ensures 0.0 <= Mean(Probabilities(rs)) <= 1.0
  {
    ProbabilitiesInUnitRange(rs);
    MeanBetween(Probabilities(rs), 0.0, 1.0);
  }

  // ---------------------------------------------------------------------
  // Reading one model's reply
  // ---------------------------------------------------------------------

  /**
   * `s[start..end]` is what the pattern `\{.*\}` (dot matching newlines)
   * finds first in `s`: it opens at the first '{' and closes at the last '}'.
   */
  ghost predicate IsJsonSpan(s: string, start: nat, end: nat) {
    && start < end <= |s|
    && s[start] == '{' && s[end - 1] == '}'
    && (forall i :: 0 <= i < start ==> s[i] != '{')
    && (forall i :: end <= i < |s| ==> s[i] != '}')
  }

  /** Some '{' precedes some '}'. */
  ghost predicate HasJsonSpan(s: string) {
    exists i, j :: 0 <= i < j < |s| && s[i] == '{' && s[j] == '}'
  }

  /** When some '{' precedes some '}', the span exists. */
  lemma JsonSpanExists(s: string)
    requires HasJsonSpan(s)
    ensures exists start: nat, end: nat :: IsJsonSpan(s, start, end)
  {
    var i, j :| 0 <= i < j < |s| && s[i] == '{' && s[j] == '}';
    var start: nat :| start <= i && s[start] == '{' && forall k :: 0 <= k < start ==> s[k] != '{' by {
      FirstOccurrence(s, '{', i);
    }
    var last: nat :| j <= last < |s| && s[last] == '}' && forall k :: last < k < |s| ==> s[k] != '}' by {
      LastOccurrence(s, '}', j);
    }
    assert IsJsonSpan(s, start, last + 1);
  }

  /** A character that occurs has a first occurrence, at or before any given one. */
  lemma {:induction false} FirstOccurrence(s: string, c: char, i: nat)
    requires i < |s| && s[i] == c
    ensures exists f: nat :: f <= i && s[f] == c && forall k :: 0 <= k < f ==> s[k] != c
  {
    if exists k :: 0 <= k < i && s[k] == c {
      var k :| 0 <= k < i && s[k] == c;
      FirstOccurrence(s, c, k);
    } else {
      assert forall k :: 0 <= k < i ==> s[k] != c;
    }
  }

  /** A character that occurs has a last occurrence, at or after any given one. */
  lemma {:induction false} LastOccurrence(s: string, c: char, j: nat)
    requires j < |s| && s[j] == c
    ensures exists l: nat :: j <= l < |s| && s[l] == c && forall k :: l < k < |s| ==> s[k] != c
    decreases |s| - j
  {
    if exists k :: j < k < |s| && s[k] == c {
      var k :| j < k < |s| && s[k] == c;
      LastOccurrence(s, c, k);
    } else {
      assert forall k :: j < k < |s| ==> s[k] != c;
    }
  }

  /** There is at most one span. */
  lemma JsonSpanUnique(s: string, start: nat, end: nat, start': nat, end': nat)
    requires IsJsonSpan(s, start, end) && IsJsonSpan(s, start', end')
    ensures start == start' && end == end'
  {
  }

  /** The span search: the first '{' scanning forwards, the last '}' scanning backwards. */
  method FindJsonSpan(s: string) returns (span: Option<(nat, nat)>)
    ensures span.Some? <==> HasJsonSpan(s)
    ensures span.Some? ==> IsJsonSpan(s, span.value.0, span.value.1)
  {
    var start := 0;
    while start < |s| && s[start] != '{'
      invariant start <= |s|
      invariant forall i :: 0 <= i < start ==> s[i] != '{'
    {
      start := start + 1;
    }
    var end: nat := |s|;
    while end > 0 && s[end - 1] != '}'
      invariant end <= |s|
      invariant forall i :: end <= i < |s| ==> s[i] != '}'
    {
      end := end - 1;
    }
    if start < end {
      span := Some((start, end));
    } else {
      span := None;
    }
  }

  /** A reply whose content could not be reached or decoded. */
  function ParseFailure(model: string): ModelResult {
    ModelResult(Some(model), Some("Parse error"), None, None, None, None)
  }

  /** A reply without a JSON object: the text is kept as it is. */
  function RawReply(model: string, content: string): ModelResult {
    ModelResult(Some(model), None, None, None, None, Some(content))
  }

  /** The result built from the decoded span: the object tagged with the model's name. */
  function Decoded(model: string, obj: Option<ModelResult>): ModelResult {
    match obj
    case None => ParseFailure(model)
    case Some(o) => o.(model := Some(model))
  }

  /**
   * Reads one model's reply. `content` is the reply's first message text, or
   * `None` when the response has no such path; `decode` is the JSON decoder,
   * `None` when it rejects its input.
   */
  method ParseModelResponse(content: Option<string>, model: string, decode: string -> Option<ModelResult>)
    returns (r: ModelResult)
    ensures r.model == Some(model)
    ensures content.None? ==> r == ParseFailure(model)
    ensures content.Some? && !HasJsonSpan(content.value) ==> r == RawReply(model, content.value)
    ensures content.Some? && HasJsonSpan(content.value) ==>
              forall start: nat, end: nat :: IsJsonSpan(content.value, start, end) ==>
                r == Decoded(model, decode(content.value[start..end]))
  {
    if content.None? {
      r := ParseFailure(model);
    } else {
      var text := content.value;
      var span := FindJsonSpan(text);
      if span.None? {
        r := RawReply(model, text);
      } else {
        var parsed := decode(text[span.value.0..span.value.1]);
        if parsed.None? {
          r := ParseFailure(model);
        } else {
          var obj := parsed.value;
          obj := obj.(model := Some(model));
          r := obj;
        }
        forall start: nat, end: nat | IsJsonSpan(text, start, end)
          ensures r == Decoded(model, decode(text[start..end]))
        {
          JsonSpanUnique(text, start, end, span.value.0, span.value.1);
        }
      }
    }
  }
}
