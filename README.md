# Fraud decision fusion, in Dafny

A model of the decision logic of a fraud-detection backend. That backend sends
a transaction to a multi-model ensemble, a pattern analyser and a
vector-similarity search, then fuses their answers into one verdict. The
verdict holds a fraud flag, a confidence, a risk tier, a fraud type, up to
five reasons and recommended actions. A fraudulent verdict also opens an
investigation workflow and stores the case. Everything around that logic is
HTTP or SDK wrapping, so only the deterministic parts are modelled:

- `schemas.dfy`, module `Schemas`: the `TransactionType` and `FraudType` enums
  with their string values and partial conversions, the `Transaction` record
  and its defaults, similar-case records, and `FraudAnalysisResult`.
- `aiml_service.dfy`, module `AimlService`: combining the per-model results
  into an ensemble decision. Failed models are skipped; probabilities and
  confidences are averaged with their defaults; risk factors are pooled
  without duplicates; agreement is bucketed by population variance. It also
  covers the brace-span extraction that reads one model's reply.
- `fraud_detection_engine.dfy`, module `FraudDetectionEngine`: the fixed-weight fraud score, the risk tiers, the
  fraud type chosen from similar cases, the action table, the reason pool, the
  fused decision, the workflow/storage trigger and the filled-in result.
- `pybuiltins.dfy`, module `PyBuiltins`: the Python built-ins these rely on,
  over mathematical values. These are `sum` and the mean, `round(x, 2)`,
  `list(set(xs))`, `max(set(xs), key=xs.count)` and `str(n)`.
- `wrappers.dfy`, module `Wrappers`: `Option`, standing for a dictionary key
  that may be missing or a value that may be `None`.

Probabilities, confidences and scores are Dafny `real`s. Methods model the
code that builds lists step by step: the ensemble loop, the action list, the
reason pool and the span search. Each method is proved against a
specification function or predicate, and lemmas state the properties of those
functions.

The fusion works as follows:

- The score uses fixed weights 0.5/0.35/0.15 with no renormalisation for a
  missing signal.
- The decision is flagged as fraud when the score exceeds 0.7
  (`backend/app/services/fraud_detection_engine.py:242`). The configured `FRAUD_THRESHOLD=0.75`
  (`backend/app/core/config.py:43`) is never read.
- The tier comes from the score, with bounds 0.5/0.75/0.9.
- A missing or failed ensemble is read as probability 0.5 and confidence 0.7.

Two consequences are proved. First, when all signals lie in [0, 1] the score
is at most 0.8725. So the critical tier and the high-priority workflow are
never reached (`ScoreNeverCritical`, `FollowUpPriorityAlwaysMedium`). Second,
cases the engine stores are written with the key "fraud_type", but the
similarity search reads back "type". So such a case comes back with type
`None`. When `None` is more frequent than every other type among the similar
cases, the conversion to `FraudType` fails (`NullTypeDefeatsConversion`,
`NullMajorityDefeatsConversion`). The Qdrant read path is not modelled, so
the `None` read-back enters these lemmas as their precondition.

## Model

| member | source | states |
|---|---|---|
| `Schemas.ParseTransactionType` | backend/app/models/schemas.py:10-16 | a string converts to a transaction type iff it is one of the five values, and converts to the member with that value |
| `Schemas.TransactionTypeRoundTrip` | backend/app/models/schemas.py:10-16 | every member's value converts back to that member, and there are exactly five distinct values |
| `Schemas.ParseFraudType` | backend/app/services/fraud_detection_engine.py:124 | `FraudType(v)` succeeds iff `v` is a string among the seven values; `None` and every other string fail |
| `Schemas.FraudTypeRoundTrip` | backend/app/models/schemas.py:19-27 | every fraud type's value converts back to that fraud type |
| `Schemas.FraudTypeValueInjective` | backend/app/models/schemas.py:19-27 | distinct fraud types have distinct values |
| `Schemas.NewTransaction` | backend/app/models/schemas.py:30-43 | an omitted currency becomes "USD" and an omitted timestamp the current clock reading; other fields are kept |
| `Schemas.NewAnalysisResult` | backend/app/models/schemas.py:55-64 | omitted similar cases become the empty list; other fields are kept |
| `PyBuiltins.Dedup` | backend/app/services/aiml_service.py:150 | `list(set(xs))` holds every element of `xs` exactly once and nothing else |
| `PyBuiltins.DistinctCardinality` | backend/app/services/fraud_detection_engine.py:273 | a duplicate-free list is as long as its set of elements, so the five-reason cut is measured in distinct reasons |
| `PyBuiltins.MostCommon` | backend/app/services/fraud_detection_engine.py:293 | `max(set(xs), key=xs.count)` is an element of `xs` occurring at least as often as every other |
| `PyBuiltins.MeanWithinRange` | backend/app/services/aiml_service.py:146-147 | a mean lies between the least and the greatest averaged value |
| `PyBuiltins.MeanBetween` | backend/app/services/aiml_service.py:146-147 | a mean of values within [lo, hi] is within [lo, hi] |
| `PyBuiltins.Round2` | backend/app/services/fraud_detection_engine.py:270 | rounding to two places moves a value by at most 0.005 and keeps [0, 1] values in [0, 1] |
| `PyBuiltins.NatToString` | backend/app/services/fraud_detection_engine.py:249 | the count in the similarity note is a non-empty string of decimal digits with no leading zero that denotes exactly the number of cases |
| `AimlService.ModelNames` | backend/app/services/aiml_service.py:158 | models_used lists every model key in order, failed models included |
| `AimlService.SurvivorCounts` | backend/app/services/aiml_service.py:137-140 | one probability and one confidence are collected per surviving model |
| `AimlService.NoSurvivors` | backend/app/services/aiml_service.py:143-144 | nothing is collected exactly when every model result carries an error |
| `AimlService.FailedModelAddsNothing` | backend/app/services/aiml_service.py:137-141 | removing a result that carries an error leaves the probabilities, confidences and risk factors unchanged |
| `AimlService.RiskFactorMembership` | backend/app/services/aiml_service.py:141 | a risk factor is pooled iff some model without an error reported it |
| `AimlService.EnsembleProbabilityInUnitRange` | backend/app/services/aiml_service.py:139-146 | the ensemble probability is in [0, 1] when every reported probability is (the 0.5 default included) |
| `AimlService.SquaredDeviations` | backend/app/services/aiml_service.py:169 | the sum of squared deviations is never negative |
| `AimlService.CalculateAgreement` | backend/app/services/aiml_service.py:164-176 | "unknown" iff there are no probabilities; otherwise high, medium or low as the population variance is below 0.01, below 0.05, or above |
| `AimlService.IdenticalProbabilitiesAgreeHighly` | backend/app/services/aiml_service.py:164-176 | models that all report the same probability have "high" agreement |
| `AimlService.MakeEnsembleDecision` | backend/app/services/aiml_service.py:126-162 | all failed (including no models) gives the error "All models failed" and nothing else; otherwise it gives the mean probability and mean confidence of the survivors, a flag iff that mean exceeds 0.7, duplicate-free risk factors equal as a set to the survivors' union, every model key, the variance agreement, and the input unchanged |
| `AimlService.JsonSpanExists` | backend/app/services/aiml_service.py:117-118 | when some '{' precedes some '}', a span from the first '{' to the last '}' exists, so the pattern matches |
| `AimlService.JsonSpanUnique` | backend/app/services/aiml_service.py:117 | a reply has at most one brace span |
| `AimlService.FindJsonSpan` | backend/app/services/aiml_service.py:116-118 | a span is found iff some '{' precedes some '}', and it runs from the first '{' to the last '}' inclusive |
| `AimlService.ParseModelResponse` | backend/app/services/aiml_service.py:107-124 | the result always carries the model name; an unreachable content is a parse error; a reply with no span keeps the raw text; otherwise the decoded span (or a parse error when decoding fails) is the result |
| `FraudDetectionEngine.RiskLevelName` | backend/app/models/schemas.py:60 | every tier's name is one of "low", "medium", "high", "critical" |
| `FraudDetectionEngine.CalculateRiskLevel` | backend/app/services/fraud_detection_engine.py:299-308 | critical iff score >= 0.9, high iff in [0.75, 0.9), medium iff in [0.5, 0.75), low iff below 0.5 |
| `FraudDetectionEngine.RiskLevelMonotone` | backend/app/services/fraud_detection_engine.py:299-308 | a higher score never gets a lower tier |
| `FraudDetectionEngine.EnsembleSignalOf` | backend/app/services/fraud_detection_engine.py:220 | an all-failed ensemble is read as a decision with no fields, so every field takes its default |
| `FraudDetectionEngine.SimilarityBoost` | backend/app/services/fraud_detection_engine.py:229 | the boost is 0.15 iff some similar case was found, else 0 |
| `FraudDetectionEngine.FinalFraudScore` | backend/app/services/fraud_detection_engine.py:232-236 | with the probability and confidence in [0, 1] the fixed-weight score lies in [0, 0.8725] |
| `FraudDetectionEngine.FinalConfidence` | backend/app/services/fraud_detection_engine.py:239 | the reported confidence is within 0.005 of the mean of the two confidences, and in [0, 1] when they are |
| `FraudDetectionEngine.ScoreNeverCritical` | backend/app/services/fraud_detection_engine.py:232-242 | with signals in [0, 1] the score is at most 0.8725, never critical, and a fraudulent score is medium or high |
| `FraudDetectionEngine.ReasonPoolSources` | backend/app/services/fraud_detection_engine.py:245-249 | each pooled reason is an ensemble risk factor, an anomaly or the similarity note; the note is pooled iff cases were found |
| `FraudDetectionEngine.CaseTypes` | backend/app/services/fraud_detection_engine.py:292 | one type per similar case, a missing "type" key read as "unknown" |
| `FraudDetectionEngine.DetermineFraudType` | backend/app/services/fraud_detection_engine.py:283-297 | "card_fraud" for no cases; otherwise a type of some case whose count is maximal |
| `FraudDetectionEngine.SeededFraudTypeIsValid` | backend/app/services/qdrant_service.py:52-90 | when every case has a seeded pattern type or none, the chosen type is a valid fraud type |
| `FraudDetectionEngine.NullTypeDefeatsConversion` | backend/app/services/qdrant_service.py:170-177 | a single similar case whose type reads back as `None` yields type `None`, and the conversion of that type fails; the read-back is assumed by the precondition |
| `FraudDetectionEngine.NullMajorityDefeatsConversion` | backend/app/services/fraud_detection_engine.py:291-294 | when `None` is more frequent than every other type among the cases, the chosen type is `None` and the conversion to `FraudType` fails |
| `FraudDetectionEngine.GetRecommendedActions` | backend/app/services/fraud_detection_engine.py:310-337 | the step-by-step list equals the action table for the flag, tier and type |
| `FraudDetectionEngine.RecommendedActionsShape` | backend/app/services/fraud_detection_engine.py:317-337 | not fraudulent: exactly approve and monitor. Fraudulent: the three immediate actions lead iff the tier is high or critical, the four investigation steps follow, the SAR filing is last iff the type is money laundering, and the length is 4, 5, 7 or 8 |
| `FraudDetectionEngine.MakeFraudDecision` | backend/app/services/fraud_detection_engine.py:210-281 | score from the fixed weights and defaults; flag iff score > 0.7; tier from the score; rounded mean confidence; most frequent type; the action table; at most five distinct reasons drawn from the pool, all of them when there are at most five |
| `FraudDetectionEngine.PlanFollowUp` | backend/app/services/fraud_detection_engine.py:81-97 | a workflow is requested and the case stored iff the decision is fraudulent; priority is high iff the tier is critical |
| `FraudDetectionEngine.FollowUpPriorityAlwaysMedium` | backend/app/services/fraud_detection_engine.py:82-97 | for signals in [0, 1] a requested workflow always has medium priority |
| `FraudDetectionEngine.ToAnalysisResult` | backend/app/services/fraud_detection_engine.py:120-128 | the result exists iff the chosen type converts to a fraud type; it then copies the decision, and its risk level is one of the four names |
| `FraudDetectionEngine.AnalysisResultWellFormed` | tests/test_fraud_detection.py:29-31 | a result from signals in [0, 1] has confidence in [0, 1] and one of the four risk levels |
| `FraudDetectionEngine.MockRunVerdict` | backend/app/services/gemini_service.py:167-182 | with every service mocked the score is 0.7195: fraudulent, medium risk, card fraud, the four investigation steps |

## Left out

- `analyze_transaction` and `analyze_document`: the awaiting of the four services, uuid case ids and logging are not modelled; only the workflow/storage trigger is kept (`PlanFollowUp`).
- The service wrappers (HTTP calls, the Qdrant client, the Google SDK), their canned fallbacks and the random mock embeddings; the canned ensemble, pattern and similar-case values appear only as constants for `MockRunVerdict`.
- `_transaction_to_text`, which depends on datetime formatting.
- JSON decoding is the parameter `decode`; the text of a parse exception is not modelled (a parse failure carries the fixed error "Parse error").
- `_parse_gemini_response` performs the same brace-span extraction as `FindJsonSpan` but is not modelled separately.
- IEEE floating point: every score is a `real`. `Round2` decides ties on the exact real, where Python decides them on the binary double.
- The Qdrant search that returns a stored case with type `None` (`qdrant_service.py:145` reads "type", `qdrant_service.py:175` writes "fraud_type") is not modelled. `NullTypeDefeatsConversion` and `NullMajorityDefeatsConversion` take that read-back as a precondition.
- JSON values of the wrong type (a `null` probability, a risk-factor field that is not a list) are not modelled. A field is either missing, taking its default, or well-typed.
- `Transaction.metadata`, `analysis_details`, the timestamp's calendar form (an integer instant here) and the records `DocumentAnalysisRequest`, `WorkflowRequest`, `WorkflowResponse` and `HealthCheck` are not modelled.
- `PyBuiltins.Dedup`: Python orders `list(set(xs))` by hashing; the model keeps first occurrences, and no contract relies on the order.
- `PyBuiltins.MostCommon`: Python breaks ties in set-iteration order; the model takes the first in list order, and the contract promises only maximality.
- `FraudDetectionEngine.MakeFraudDecision`: states which reasons are kept, not their order, because the source orders them by set hashing.
