/**
 * The decision-fusion step of the fraud detection engine: the ensemble
 * verdict, the pattern analysis and the similar-case hits are fused into a
 * fraud score, a flag, a risk tier, a fraud type, reasons and recommended
 * actions, and the score decides whether an investigation is opened.
 */
module FraudDetectionEngine {
  import opened Wrappers
  import opened PyBuiltins
  import opened Schemas
  import AimlService

  // ---------------------------------------------------------------------
  // Risk tiers
  // ---------------------------------------------------------------------

  datatype RiskLevel = Low | Medium | High | Critical

  function RiskLevelName(r: RiskLevel): (name: string)
    ensures name in RiskLevelNames
  {
    match r
    case Low => "low"
    case Medium => "medium"
    case High => "high"
    case Critical => "critical"
  }

  /** The tiers in increasing order of risk. */
  function Rank(r: RiskLevel): nat {
    match r
    case Low => 0
    case Medium => 1
    case High => 2
    case Critical => 3
  }

  /** The tier of a fraud score: 0.9 and up critical, 0.75 up high, 0.5 up medium, else low. */
  function CalculateRiskLevel(score: real): (r: RiskLevel)
    ensures r == Critical <==> 0.9 <= score
    ensures r == High <==> 0.75 <= score < 0.9
    ensures r == Medium <==> 0.5 <= score < 0.75
    ensures r == Low <==> score < 0.5
  {
    if score >= 0.9 then Critical
    else if score >= 0.75 then High
    else if score >= 0.5 then Medium
    else Low
  }

  /** A higher score never gets a lower tier. */
  lemma RiskLevelMonotone(s: real, t: real)
    requires s <= t
    ensures Rank(CalculateRiskLevel(s)) <= Rank(CalculateRiskLevel(t))
  {
  }

  // ---------------------------------------------------------------------
  // The signals being fused
  // ---------------------------------------------------------------------

  /** The "ensemble_decision" dictionary; an absent one reads as one with no keys. */
  datatype EnsembleSignal = EnsembleSignal(
    fraudProbability: Option<real>,
    confidence: Option<real>,
    riskFactors: Option<seq<string>>)

  /** The pattern analysis dictionary. */
  datatype GeminiSignal = GeminiSignal(
    isSuspicious: Option<bool>,
    confidence: Option<real>,
    anomalies: Option<seq<string>>)

  /** How the engine reads the ensemble's outcome: an all-failed ensemble has no decision at all. */
  function EnsembleSignalOf(outcome: AimlService.EnsembleOutcome): (e: EnsembleSignal)
    ensures outcome.AllModelsFailed? ==> e == EnsembleSignal(None, None, None)
    ensures outcome.Ensemble? ==>
              && e.fraudProbability == Some(outcome.ensembleDecision.fraudProbability)
              && e.confidence == Some(outcome.ensembleDecision.confidence)
              && e.riskFactors == Some(outcome.ensembleDecision.riskFactors)
  {
    match outcome
    case AllModelsFailed(_) => EnsembleSignal(None, None, None)
    case Ensemble(d, _) => EnsembleSignal(Some(d.fraudProbability), Some(d.confidence), Some(d.riskFactors))
  }

  function AimlProbability(e: EnsembleSignal): real { e.fraudProbability.GetOr(0.5) }
  function AimlConfidence(e: EnsembleSignal): real { e.confidence.GetOr(0.7) }
  function GeminiSuspicious(g: GeminiSignal): bool { g.isSuspicious.GetOr(false) }
  function GeminiConfidence(g: GeminiSignal): real { g.confidence.GetOr(0.5) }

  /** Every probability and confidence present in the signals lies in [0, 1]. */
  predicate SignalsInUnitRange(e: EnsembleSignal, g: GeminiSignal) {
    && (e.fraudProbability.Some? ==> 0.0 <= e.fraudProbability.value <= 1.0)
    && (e.confidence.Some? ==> 0.0 <= e.confidence.value <= 1.0)
    && (g.confidence.Some? ==> 0.0 <= g.confidence.value <= 1.0)
  }

  // ---------------------------------------------------------------------
  // Score and confidence
  // ---------------------------------------------------------------------

  /** 0.15 when any similar case was found, else 0. */
  function SimilarityBoost(caseCount: nat): (b: real)
    ensures b == 0.15 <==> caseCount > 0
    ensures b == 0.0 <==> caseCount == 0
  {
    if caseCount > 0 then 0.15 else 0.0
  }

  /**
   * The fixed-weight score: half the ensemble probability, 0.35 times the
   * pattern confidence (or its complement when the pattern is not suspicious),
   * and 0.15 times the similarity boost. The weights are not renormalised.
   */
  function FinalFraudScore(probability: real, suspicious: bool, confidence: real, boost: real): (s: real)
    ensures 0.0 <= probability <= 1.0 && 0.0 <= confidence <= 1.0 && 0.0 <= boost <= 0.15 ==>
              0.0 <= s <= 0.8725
  {
    probability * 0.5 + (if suspicious then confidence else 1.0 - confidence) * 0.35 + boost * 0.15
  }

  /** The score of the given signals, missing fields taking their defaults. */
  function FinalScore(e: EnsembleSignal, g: GeminiSignal, cases: seq<SimilarCase>): real {
    FinalFraudScore(AimlProbability(e), GeminiSuspicious(g), GeminiConfidence(g), SimilarityBoost(|cases|))
  }

  /** The reported confidence: the mean of the two confidences, rounded to two places. */
  function FinalConfidence(e: EnsembleSignal, g: GeminiSignal): (c: real)
    ensures SignalsInUnitRange(e, g) ==> 0.0 <= c <= 1.0
    ensures (AimlConfidence(e) + GeminiConfidence(g)) / 2.0 - 0.005 <= c
    ensures c <= (AimlConfidence(e) + GeminiConfidence(g)) / 2.0 + 0.005
  {
    Round2((AimlConfidence(e) + GeminiConfidence(g)) / 2.0)
  }

  /**
   * With signals in [0, 1] the score never reaches 0.9, so the tier is never
   * critical, and a fraudulent score (above 0.7) is medium or high.
   */
  lemma ScoreNeverCritical(e: EnsembleSignal, g: GeminiSignal, cases: seq<SimilarCase>)
    requires SignalsInUnitRange(e, g)
    ensures FinalScore(e, g, cases) <= 0.8725
    ensures CalculateRiskLevel(FinalScore(e, g, cases)) != Critical
    ensures FinalScore(e, g, cases) > 0.7 ==>
              CalculateRiskLevel(FinalScore(e, g, cases)) in {Medium, High}
  {
  }

  // ---------------------------------------------------------------------
  // Reasons
  // ---------------------------------------------------------------------

  function SimilarMessage(caseCount: nat): string {
    "Similar to " + NatToString(caseCount) + " known fraud patterns"
  }

  /** All candidate reasons: ensemble risk factors, then anomalies, then the similarity note. */
  function ReasonPool(e: EnsembleSignal, g: GeminiSignal, cases: seq<SimilarCase>): seq<string> {
    e.riskFactors.GetOr([]) + g.anomalies.GetOr([])
      + if |cases| > 0 then [SimilarMessage(|cases|)] else []
  }

  /** Each pooled reason has one of the three origins; the similarity note is pooled iff cases were found. */
  lemma ReasonPoolSources(e: EnsembleSignal, g: GeminiSignal, cases: seq<SimilarCase>, x: string)
    ensures x in ReasonPool(e, g, cases) <==>
              x in e.riskFactors.GetOr([]) || x in g.anomalies.GetOr([])
              || (|cases| > 0 && x == SimilarMessage(|cases|))
    ensures |cases| > 0 ==> SimilarMessage(|cases|) in ReasonPool(e, g, cases)
    ensures |cases| == 0 ==> ReasonPool(e, g, cases) == e.riskFactors.GetOr([]) + g.anomalies.GetOr([])
  {
  }

  // ---------------------------------------------------------------------
  // Fraud type
  // ---------------------------------------------------------------------

  /** `case.get("type", "unknown")`: a Python string or `None`. */
  function CaseTypeOf(c: SimilarCase): Option<string> {
    match c.caseType
    case NoType => Some("unknown")
    case NullType => None
    case TypeName(s) => Some(s)
  }

  function CaseTypes(cases: seq<SimilarCase>): (ts: seq<Option<string>>)
    ensures |ts| == |cases|
    ensures forall i :: 0 <= i < |cases| ==> ts[i] == CaseTypeOf(cases[i])
  {
    seq(|cases|, i requires 0 <= i < |cases| => CaseTypeOf(cases[i]))
  }

  /** "card_fraud" with no similar cases, else a most frequent type among them. */
  function DetermineFraudType(cases: seq<SimilarCase>): (t: Option<string>)
    ensures cases == [] ==> t == Some("card_fraud")
    ensures cases != [] ==> t in CaseTypes(cases)
    ensures cases != [] ==>
              forall u :: u in CaseTypes(cases) ==> Count(CaseTypes(cases), u) <= Count(CaseTypes(cases), t)
  {
    if cases == [] then Some("card_fraud") else MostCommon(CaseTypes(cases))
  }

  /** The types of the seeded patterns and of the canned similar cases. */
  const SeededPatternTypes: set<string> :=
    {"card_fraud", "money_laundering", "identity_theft", "synthetic_identity"}

  /** A case whose "type" entry is missing or one of the seeded types. */
  predicate SeededTypeEntry(c: SimilarCase) {
    c.caseType.NoType? || (c.caseType.TypeName? && c.caseType.name in SeededPatternTypes)
  }

  /**
   * When every similar case carries a seeded type or none, the chosen type is
   * a valid `FraudType`, so the conversion that builds the result succeeds.
   */
  lemma SeededFraudTypeIsValid(cases: seq<SimilarCase>)
    requires forall i :: 0 <= i < |cases| ==> SeededTypeEntry(cases[i])
    ensures ParseFraudType(DetermineFraudType(cases)).Some?
  {
  }

  /**
   * A case stored by the engine is written under "fraud_type", so the search
   * returns it with a "type" of `None`; when such cases are the most frequent
   * the chosen type is `None` and the conversion to `FraudType` fails.
   */
  lemma NullTypeDefeatsConversion(c: SimilarCase)
    requires c.caseType == NullType
    ensures DetermineFraudType([c]) == None
    ensures ParseFraudType(DetermineFraudType([c])).None?
  {
  }

  /**
   * More generally: when `None` occurs more often than every string type
   * among the similar cases, the chosen type is `None` and the conversion to
   * `FraudType` fails.
   */
  lemma NullMajorityDefeatsConversion(cases: seq<SimilarCase>)
    requires cases != []
    requires forall u :: u in CaseTypes(cases) && u != None ==>
               Count(CaseTypes(cases), u) < Count(CaseTypes(cases), None)
    ensures DetermineFraudType(cases) == None
    ensures ParseFraudType(DetermineFraudType(cases)).None?
  {
  }

  /** The two canned similar cases the vector store returns when it is unreachable. */
  function MockSimilarCases(): seq<SimilarCase> {
    [ SimilarCase(Some("fraud_001"), TypeName("card_fraud"),
                  Some("Multiple transactions from different countries within 1 hour"),
                  Some("critical"), 0.89),
      SimilarCase(Some("fraud_005"), TypeName("card_fraud"),
                  Some("Small test transactions followed by large purchase"),
                  Some("medium"), 0.76) ]
  }

  // ---------------------------------------------------------------------
  // Recommended actions
  // ---------------------------------------------------------------------

  const ApprovedActions: seq<string> := ["Transaction approved", "Continue monitoring"]

  const ImmediateActions: seq<string> := [
    "IMMEDIATE: Block transaction",
    "IMMEDIATE: Freeze account pending investigation",
    "Contact customer via verified phone number"]

  const InvestigationActions: seq<string> := [
    "Create fraud investigation case",
    "Review recent transaction history",
    "Verify customer identity",
    "Check for similar patterns in other accounts"]

  const SarAction: string := "File Suspicious Activity Report (SAR)"

  /** The action list for a flag, a tier and a fraud type. */
  function RecommendedActions(isFraudulent: bool, riskLevel: RiskLevel, fraudType: Option<string>): seq<string> {
    if !isFraudulent then ApprovedActions
    else
      (if riskLevel in {Critical, High} then ImmediateActions else [])
      + InvestigationActions
      + (if fraudType == Some("money_laundering") then [SarAction] else [])
  }

  /** Builds the action list step by step, as the engine does. */
  method GetRecommendedActions(isFraudulent: bool, riskLevel: RiskLevel, fraudType: Option<string>)
    returns (actions: seq<string>)
    ensures actions == RecommendedActions(isFraudulent, riskLevel, fraudType)
  {
    if !isFraudulent {
      return ["Transaction approved", "Continue monitoring"];
    }
    actions := [];
    if riskLevel == Critical || riskLevel == High {
      actions := actions + ["IMMEDIATE: Block transaction"];
      actions := actions + ["IMMEDIATE: Freeze account pending investigation"];
      actions := actions + ["Contact customer via verified phone number"];
    }
    actions := actions + [
      "Create fraud investigation case",
      "Review recent transaction history",
      "Verify customer identity",
      "Check for similar patterns in other accounts"];
    if fraudType == Some("money_laundering") {
      actions := actions + ["File Suspicious Activity Report (SAR)"];
    }
  }

  /**
   * Not fraudulent: approve and monitor, whatever the tier and type.
   * Fraudulent: the immediate actions lead iff the tier is high or critical,
   * the four investigation steps follow, and the SAR filing closes the list
   * iff the type is money laundering; so there are 4, 5, 7 or 8 actions.
   */
  lemma RecommendedActionsShape(isFraudulent: bool, riskLevel: RiskLevel, fraudType: Option<string>)
    ensures !isFraudulent ==> RecommendedActions(isFraudulent, riskLevel, fraudType) == ApprovedActions
    ensures isFraudulent ==>
              var a := RecommendedActions(isFraudulent, riskLevel, fraudType);
              var urgent := riskLevel == High || riskLevel == Critical;
              var offset := if urgent then 3 else 0;
              && |a| >= 4
              && (a[..3] == ImmediateActions <==> urgent)
              && a[offset..offset + 4] == InvestigationActions
              && (a[|a| - 1] == SarAction <==> fraudType == Some("money_laundering"))
              && |a| == offset + 4 + (if fraudType == Some("money_laundering") then 1 else 0)
              && |a| in {4, 5, 7, 8}
  {
    if isFraudulent && !(riskLevel == High || riskLevel == Critical) {
      var a := RecommendedActions(isFraudulent, riskLevel, fraudType);
      assert a[0] == InvestigationActions[0];
      assert a[0][0] != ImmediateActions[0][0];
    }
  }

  // ---------------------------------------------------------------------
  // The fused decision
  // ---------------------------------------------------------------------

  datatype Scores = Scores(aimlEnsemble: real, geminiAnalysis: real, similarityBoost: real, finalScore: real)

  datatype FraudDecision = FraudDecision(
    isFraudulent: bool,
    confidenceScore: real,
    fraudType: Option<string>,
    riskLevel: RiskLevel,
    reasons: seq<string>,
    recommendedActions: seq<string>,
    scores: Scores)

  /**
   * Fuses the three signals. The flag and the tier both come from the score
   * (flag above 0.7); the confidence is reported separately. At most five
   * distinct reasons are kept, in no promised order.
   */
  method MakeFraudDecision(ensemble: EnsembleSignal, gemini: GeminiSignal, similarCases: seq<SimilarCase>)
    returns (d: FraudDecision)
    ensures d.scores.finalScore == FinalScore(ensemble, gemini, similarCases)
    ensures d.scores.aimlEnsemble == AimlProbability(ensemble)
    ensures d.scores.geminiAnalysis == if GeminiSuspicious(gemini) then GeminiConfidence(gemini) else 0.0
    ensures d.scores.similarityBoost == SimilarityBoost(|similarCases|)
    ensures d.isFraudulent <==> d.scores.finalScore > 0.7
    ensures d.riskLevel == CalculateRiskLevel(d.scores.finalScore)
    ensures d.confidenceScore == FinalConfidence(ensemble, gemini)
    ensures d.fraudType == DetermineFraudType(similarCases)
    ensures d.recommendedActions == RecommendedActions(d.isFraudulent, d.riskLevel, d.fraudType)
    ensures NoDuplicates(d.reasons)
    ensures Elements(d.reasons) <= Elements(ReasonPool(ensemble, gemini, similarCases))
    ensures var n := |Elements(ReasonPool(ensemble, gemini, similarCases))|;
            |d.reasons| == if n <= 5 then n else 5
    ensures |Elements(ReasonPool(ensemble, gemini, similarCases))| <= 5 ==>
              Elements(d.reasons) == Elements(ReasonPool(ensemble, gemini, similarCases))
  {
    var aimlFraudProb := ensemble.fraudProbability.GetOr(0.5);
    var aimlConfidence := ensemble.confidence.GetOr(0.7);
    var geminiSuspicious := gemini.isSuspicious.GetOr(false);
    var geminiConfidence := gemini.confidence.GetOr(0.5);
    var similarityBoost := if |similarCases| > 0 then 0.15 else 0.0;
    var finalFraudScore :=
      aimlFraudProb * 0.5
      + (if geminiSuspicious then geminiConfidence else 1.0 - geminiConfidence) * 0.35
      + similarityBoost * 0.15;
    var finalConfidence := (aimlConfidence + geminiConfidence) / 2.0;
    var isFraudulent := finalFraudScore > 0.7;

    var reasons: seq<string> := [];
    reasons := reasons + ensemble.riskFactors.GetOr([]);
    reasons := reasons + gemini.anomalies.GetOr([]);
    if |similarCases| > 0 {
      reasons := reasons + [SimilarMessage(|similarCases|)];
    }
    assert reasons == ReasonPool(ensemble, gemini, similarCases);

    var fraudType := DetermineFraudType(similarCases);
    var riskLevel := CalculateRiskLevel(finalFraudScore);
    var actions := GetRecommendedActions(isFraudulent, riskLevel, fraudType);

    var unique := Dedup(reasons);
    DistinctCardinality(unique);
    var top := if |unique| <= 5 then unique else unique[..5];
    assert Elements(top) <= Elements(unique);

    d := FraudDecision(
      isFraudulent, Round2(finalConfidence), fraudType, riskLevel, top, actions,
      Scores(aimlFraudProb, if geminiSuspicious then geminiConfidence else 0.0,
             similarityBoost, finalFraudScore));
  }

  // ---------------------------------------------------------------------
  // Follow-up: investigation workflow and case storage
  // ---------------------------------------------------------------------

  datatype Priority = MediumPriority | HighPriority

  /** What the engine does after deciding: the workflow to request (if any) and whether to store the case. */
  datatype FollowUp = FollowUp(workflow: Option<Priority>, storeCase: bool)

  /**
   * A fraudulent decision requests an investigation workflow and stores the
   * case; the workflow's priority is high iff the tier is critical.
   */
  function PlanFollowUp(d: FraudDecision): (f: FollowUp)
    ensures f.workflow.Some? <==> d.isFraudulent
    ensures f.storeCase <==> d.isFraudulent
    ensures f.workflow == Some(HighPriority) <==> d.isFraudulent && d.riskLevel == Critical
  {
    if d.isFraudulent then
      FollowUp(Some(if d.riskLevel == Critical then HighPriority else MediumPriority), true)
    else
      FollowUp(None, false)
  }

  /**
   * Because the score of in-range signals never reaches the critical tier,
   * every workflow the engine requests for them has medium priority.
   */
  lemma FollowUpPriorityAlwaysMedium(e: EnsembleSignal, g: GeminiSignal, cases: seq<SimilarCase>, d: FraudDecision)
    requires SignalsInUnitRange(e, g)
    requires d.riskLevel == CalculateRiskLevel(FinalScore(e, g, cases))
    ensures PlanFollowUp(d).workflow != Some(HighPriority)
    ensures d.isFraudulent ==> PlanFollowUp(d).workflow == Some(MediumPriority)
  {
  }

  // ---------------------------------------------------------------------
  // The analysis result
  // ---------------------------------------------------------------------

  /**
   * Fills the analysis result from a decision. The fraud type goes through
   * `FraudType(...)`, which fails (here `None`) for `None` and for strings
   * outside the seven values; the free-form details are not modelled.
   */
  function ToAnalysisResult(d: FraudDecision, similarCases: seq<SimilarCase>): (r: Option<FraudAnalysisResult>)
    ensures r.Some? <==> ParseFraudType(d.fraudType).Some?
    ensures r.Some? ==>
              && r.value.isFraudulent == d.isFraudulent
              && r.value.confidenceScore == d.confidenceScore
              && FraudTypeValue(r.value.fraudType) == d.fraudType.value
              && r.value.riskLevel in RiskLevelNames
              && r.value.riskLevel == RiskLevelName(d.riskLevel)
              && r.value.reasons == d.reasons
              && r.value.similarCases == similarCases
              && r.value.recommendedActions == d.recommendedActions
  {
    match ParseFraudType(d.fraudType)
    case None => None
    case Some(t) =>
      Some(NewAnalysisResult(d.isFraudulent, d.confidenceScore, t, RiskLevelName(d.riskLevel),
                             d.reasons, Some(similarCases), d.recommendedActions))
  }

  /** A result built from in-range signals has its confidence in [0, 1] and a named tier. */
  lemma AnalysisResultWellFormed(e: EnsembleSignal, g: GeminiSignal, d: FraudDecision, cases: seq<SimilarCase>)
    requires SignalsInUnitRange(e, g)
    requires d.confidenceScore == FinalConfidence(e, g)
    requires ToAnalysisResult(d, cases).Some?
    ensures 0.0 <= ToAnalysisResult(d, cases).value.confidenceScore <= 1.0
    ensures ToAnalysisResult(d, cases).value.riskLevel in RiskLevelNames
  {
  }

  // ---------------------------------------------------------------------
  // The demonstration run
  // ---------------------------------------------------------------------

  /** The canned ensemble decision used when no model service is configured. */
  function MockEnsembleSignal(): EnsembleSignal {
    EnsembleSignal(Some(0.82), Some(0.89), Some([
      "Unusual transaction amount", "New geographic location",
      "Irregular timing pattern", "High-risk merchant category"]))
  }

  /** The canned pattern analysis used when no pattern service is configured. */
  function MockGeminiSignal(): GeminiSignal {
    GeminiSignal(Some(true), Some(0.82), Some([
      "Transaction amount 3x higher than average",
      "New geographic location detected",
      "Transaction outside normal hours"]))
  }

  /**
   * With every service mocked, the score is 0.7195: fraudulent, but only
   * medium risk, card fraud, the four investigation steps, and a
   * medium-priority workflow.
   */
  lemma MockRunVerdict()
    ensures FinalScore(MockEnsembleSignal(), MockGeminiSignal(), MockSimilarCases()) == 0.7195
    ensures CalculateRiskLevel(0.7195) == Medium
    ensures DetermineFraudType(MockSimilarCases()) == Some("card_fraud")
    ensures RecommendedActions(true, Medium, Some("card_fraud")) == InvestigationActions
  {
  }
}
