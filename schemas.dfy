/**
 * The request and result records of the fraud-detection backend: the two
 * enumerations, the transaction submitted for analysis, the similar-case
 * records the vector store returns, and the analysis result the engine fills in.
 */
module Schemas {
  import opened Wrappers

  // ---------------------------------------------------------------------
  // TransactionType
  // ---------------------------------------------------------------------

  datatype TransactionType = CreditCard | WireTransfer | Ach | Crypto | CashWithdrawal

  /** The enum member's string value. */
  function TransactionTypeValue(t: TransactionType): string {
    match t
    case CreditCard => "credit_card"
    case WireTransfer => "wire_transfer"
    case Ach => "ach"
    case Crypto => "crypto"
    case CashWithdrawal => "cash_withdrawal"
  }

  const TransactionTypeValues: set<string> :=
    {"credit_card", "wire_transfer", "ach", "crypto", "cash_withdrawal"}

  /** `TransactionType(s)`: the member whose value is `s`, or a validation failure. */
  function ParseTransactionType(s: string): (r: Option<TransactionType>)
    ensures r.Some? <==> s in TransactionTypeValues
    ensures r.Some? ==> TransactionTypeValue(r.value) == s
  {
    if s == "credit_card" then Some(CreditCard)
    else if s == "wire_transfer" then Some(WireTransfer)
    else if s == "ach" then Some(Ach)
    else if s == "crypto" then Some(Crypto)
    else if s == "cash_withdrawal" then Some(CashWithdrawal)
    else None
  }

  /** Every member's value parses back to that member, and the values are exactly five. */
  lemma TransactionTypeRoundTrip(t: TransactionType)
    ensures ParseTransactionType(TransactionTypeValue(t)) == Some(t)
    ensures TransactionTypeValue(t) in TransactionTypeValues
    ensures |TransactionTypeValues| == 5
  {
  }

  // ---------------------------------------------------------------------
  // FraudType
  // ---------------------------------------------------------------------

  datatype FraudType =
    IdentityTheft | CardFraud | MoneyLaundering | AccountTakeover
    | SyntheticIdentity | Phishing | Unknown

  function FraudTypeValue(t: FraudType): string {
    match t
    case IdentityTheft => "identity_theft"
    case CardFraud => "card_fraud"
    case MoneyLaundering => "money_laundering"
    case AccountTakeover => "account_takeover"
    case SyntheticIdentity => "synthetic_identity"
    case Phishing => "phishing"
    case Unknown => "unknown"
  }

  const FraudTypeValues: set<string> :=
    {"identity_theft", "card_fraud", "money_laundering", "account_takeover",
     "synthetic_identity", "phishing", "unknown"}

  /**
   * `FraudType(v)`: the member whose value is `v`. `v` is a Python value that
   * may be `None` (here `None`); that and every string outside the seven
   * values raise `ValueError` (here `None` again).
   */
  function ParseFraudType(v: Option<string>): (r: Option<FraudType>)
    ensures r.Some? <==> v.Some? && v.value in FraudTypeValues
    ensures r.Some? ==> FraudTypeValue(r.value) == v.value
  {
    match v
    case None => None
    case Some(s) =>
      if s == "identity_theft" then Some(IdentityTheft)
      else if s == "card_fraud" then Some(CardFraud)
      else if s == "money_laundering" then Some(MoneyLaundering)
      else if s == "account_takeover" then Some(AccountTakeover)
      else if s == "synthetic_identity" then Some(SyntheticIdentity)
      else if s == "phishing" then Some(Phishing)
      else if s == "unknown" then Some(Unknown)
      else None
  }

  /** Every member's value parses back to that member. */
  lemma FraudTypeRoundTrip(t: FraudType)
    ensures ParseFraudType(Some(FraudTypeValue(t))) == Some(t)
  {
  }

  /** Distinct members have distinct values, so the seven values name seven members. */
  lemma FraudTypeValueInjective(s: FraudType, t: FraudType)
    requires FraudTypeValue(s) == FraudTypeValue(t)
    ensures s == t
  {
  }

  // ---------------------------------------------------------------------
  // Transaction
  // ---------------------------------------------------------------------

  /** An instant, as seconds since the epoch. */
  type Timestamp = int

  datatype Transaction = Transaction(
    transactionId: string,
    userId: string,
    amount: real,
    currency: string,
    transactionType: TransactionType,
    merchantName: Option<string>,
    merchantCategory: Option<string>,
    location: Option<string>,
    ipAddress: Option<string>,
    deviceId: Option<string>,
    timestamp: Timestamp)

  /**
   * Constructing a `Transaction`: an omitted currency becomes "USD", an
   * omitted timestamp becomes `now` (the clock reading `datetime.utcnow()`
   * supplies), and every other field is taken as given.
   */
  function NewTransaction(
    transactionId: string, userId: string, amount: real, currency: Option<string>,
    transactionType: TransactionType, merchantName: Option<string>,
    merchantCategory: Option<string>, location: Option<string>,
    ipAddress: Option<string>, deviceId: Option<string>,
    timestamp: Option<Timestamp>, now: Timestamp): (t: Transaction)
    ensures currency.None? ==> t.currency == "USD"
    ensures currency.Some? ==> t.currency == currency.value
    ensures timestamp.None? ==> t.timestamp == now
    ensures timestamp.Some? ==> t.timestamp == timestamp.value
    ensures t.transactionId == transactionId && t.userId == userId && t.amount == amount
    ensures t.transactionType == transactionType && t.merchantName == merchantName
    ensures t.merchantCategory == merchantCategory && t.location == location
    ensures t.ipAddress == ipAddress && t.deviceId == deviceId
  {
    Transaction(transactionId, userId, amount, currency.GetOr("USD"), transactionType,
                merchantName, merchantCategory, location, ipAddress, deviceId,
                timestamp.GetOr(now))
  }

  // ---------------------------------------------------------------------
  // Similar cases
  // ---------------------------------------------------------------------

  /**
   * The "type" entry of a similar-case dictionary: the key may be missing,
   * present with `None`, or present with a string.
   */
  datatype TypeEntry = NoType | NullType | TypeName(name: string)

  /** One hit of the similarity search, as a dictionary. */
  datatype SimilarCase = SimilarCase(
    patternId: Option<string>,
    caseType: TypeEntry,
    description: Option<string>,
    severity: Option<string>,
    similarityScore: real)

  // ---------------------------------------------------------------------
  // FraudAnalysisResult
  // ---------------------------------------------------------------------

  /** The values `risk_level` is meant to take. */
  const RiskLevelNames: set<string> := {"low", "medium", "high", "critical"}

  /** The analysis result; `analysis_details` is free-form and not modelled. */
  datatype FraudAnalysisResult = FraudAnalysisResult(
    isFraudulent: bool,
    confidenceScore: real,
    fraudType: FraudType,
    riskLevel: string,
    reasons: seq<string>,
    similarCases: seq<SimilarCase>,
    recommendedActions: seq<string>)

  /** Constructing a `FraudAnalysisResult`: omitted similar cases become the empty list. */
  function NewAnalysisResult(
    isFraudulent: bool, confidenceScore: real, fraudType: FraudType, riskLevel: string,
    reasons: seq<string>, similarCases: Option<seq<SimilarCase>>,
    recommendedActions: seq<string>): (r: FraudAnalysisResult)
    ensures similarCases.None? ==> r.similarCases == []
    ensures similarCases.Some? ==> r.similarCases == similarCases.value
    ensures r.isFraudulent == isFraudulent && r.confidenceScore == confidenceScore
    ensures r.fraudType == fraudType && r.riskLevel == riskLevel
    ensures r.reasons == reasons && r.recommendedActions == recommendedActions
  {
    FraudAnalysisResult(isFraudulent, confidenceScore, fraudType, riskLevel, reasons,
                        similarCases.GetOr([]), recommendedActions)
  }
}
