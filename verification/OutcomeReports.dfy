/**
  What a runner reports about a dispatched call, and the three projections of that report: the
  attempt's outcome, the receipt's outcome and the terminal tool call.
 */
module OutcomeReports {
  import opened Basics
  import opened Records
  import CI = ContentInfluence

  datatype ReportStatus = ReportSucceeded | ReportFailed | ReportCancelled | ReportTimedOut | ReportUnknown

  datatype Report = Report(
    status: ReportStatus, error: Option<string>, remediation: Option<Json>, result: Option<Json>,
    delivery: Option<Delivery>, actor: string)

  /** The part of the stored call that an outcome changes. */
  datatype CallState = CallState(
    status: CallStatus, error: Option<string>, result: Option<Json>, delivery: Option<Delivery>,
    withheld: Option<bool>, updatedAt: Timestamp)

  /** One dispatched call: who it is, how it was stored at dispatch, whether its grant names a receipt. */
  datatype Setup = Setup(
    identity: CallIdentity, envelope: Option<Envelope>, initial: CallState, policyVersionHash: string, hasReceipt: bool,
    byteCount: Json -> nat)

  predicate IsMcp(u: Setup) {
    u.identity.evidence.Some? && u.identity.evidence.value.sourceType == Some("mcp")
  }

  predicate ClassifiedSource(u: Setup) {
    u.identity.resultSource.Some? && u.identity.resultSource.value.Classified?
  }

  /** `requiresMcpResultDelivery`: a call of a wrapped MCP tool whose results are classified. */
  predicate ClassifiedMcp(u: Setup) { IsMcp(u) && ClassifiedSource(u) }

  predicate ScopeVerified(u: Setup) {
    u.identity.influenceScopeId.Some? && CI.IsScopeId(u.identity.influenceScopeId.value)
  }

  /** What the checks on consumption have established for a call that was dispatched. */
  predicate DispatchedWell(u: Setup) {
    && u.initial.status == Authorized
    && (ClassifiedMcp(u) ==> u.initial.withheld == Some(true))
  }

  predicate Transport(s: ReportStatus) { s == ReportCancelled || s == ReportTimedOut || s == ReportUnknown }

  // ------------------------------------------------------------ validation

  const TIMED_OUT_AFTER_DISPATCH := "Downstream MCP transport timed out after dispatch."
  const CANCELLED_AFTER_DISPATCH := "Downstream MCP execution was cancelled after dispatch."
  const FAILED_AFTER_DISPATCH := "Downstream MCP transport failed after dispatch."

  function StaticTransportError(s: ReportStatus): string {
    if s == ReportTimedOut then TIMED_OUT_AFTER_DISPATCH
    else if s == ReportCancelled then CANCELLED_AFTER_DISPATCH
    else FAILED_AFTER_DISPATCH
  }

  /** For classified MCP calls the error text of a transport outcome is replaced. */
  function Rewritten(u: Setup, r: Report): Report {
    if ClassifiedMcp(u) && Transport(r.status) then r.(error := Some(StaticTransportError(r.status))) else r
  }

  predicate DeliveryMatches(u: Setup, r: Report) {
    r.delivery.Some? ==>
      && r.result.Some?
      && r.delivery.value.byteCount == u.byteCount(r.result.value)
      && r.delivery.value.canonicalResultHash == JsonHash(r.result.value)
  }

  /** Every check of the report against the call; none of them depends on what is stored. */
  predicate Acceptable(u: Setup, r: Report) {
    && McpEvidenceConsistent(u.identity, u.envelope)
    && (ClassifiedMcp(u) && Transport(r.status) ==> r.result == None && r.delivery == None)
    && (ClassifiedMcp(u) && r.status == ReportFailed ==> r.result.Some?)
    && DeliveryMatches(u, r)
    && (ClassifiedMcp(u) && (r.status == ReportSucceeded || r.result.Some?) ==>
          r.delivery.Some? && r.delivery.value.modelVisible)
  }

  // ------------------------------------------------------------ projections

  function TerminalStateOf(s: ReportStatus): AttemptState {
    match s
    case ReportSucceeded => Succeeded
    case ReportFailed => FailedAfterDispatch
    case ReportCancelled => CancelledRun
    case ReportTimedOut => TimedOut
    case ReportUnknown => UnknownOutcome
  }

  const OK_RESULT: Json := Object(map["ok" := Bool(true)])

  function DefaultError(s: ReportStatus): string {
    match s
    case ReportCancelled => "External execution was cancelled."
    case ReportTimedOut => "External execution timed out."
    case ReportUnknown => "External execution outcome is unknown."
    case _ => "External execution failed."
  }

  function ErrorCode(s: ReportStatus): string {
    match s
    case ReportCancelled => "execution_cancelled"
    case ReportTimedOut => "execution_timeout"
    case ReportUnknown => "unknown_execution_outcome"
    case _ => "external_execution_error"
  }

  function ErrorOf(r: Report): Option<string> {
    if r.status == ReportSucceeded then None else Some(r.error.GetOr(DefaultError(r.status)))
  }

  function ResultOf(r: Report): Option<Json> {
    if r.status == ReportSucceeded then Some(r.result.GetOr(OK_RESULT)) else r.result
  }

  function RemediationOf(r: Report): Option<Json> {
    if r.status == ReportSucceeded then r.remediation else None
  }

  function OutcomeOf(u: Setup, report: Report, at: Timestamp): AttemptOutcome {
    var r := Rewritten(u, report);
    var uncertain := r.status == ReportTimedOut || r.status == ReportUnknown;
    var code := if r.status == ReportSucceeded then None else Some(ErrorCode(r.status));
    AttemptOutcome(
      TerminalStateOf(r.status), !uncertain, code, code, ErrorOf(r), HashOptional(RemediationOf(r)), at,
      HashDelivery(r.delivery), HashOptional(ResultOf(r)), if uncertain then ManualReconciliation else NoRetry)
  }

  function ReceiptOutcomeOf(u: Setup, report: Report, at: Timestamp): ReceiptOutcome {
    var r := Rewritten(u, report);
    var ok := r.status == ReportSucceeded;
    ReceiptOutcome(ok, ErrorOf(r), at, r.actor, RemediationOf(r), if ok then ResultOf(r) else None, r.delivery)
  }

  predicate ExposureRequired(u: Setup, r: Report) {
    r.delivery.Some? && r.delivery.value.modelVisible && ClassifiedSource(u)
  }

  /** The result of the call with the execution's result added to it. */
  function WithExecutionOutcome(result: Option<Json>, outcome: Json): Json {
    var members := if result.Some? && result.value.Object? then result.value.members else map[];
    Object(members["externalExecutionOutcome" := outcome])
  }

  function TerminalCallOf(u: Setup, snapshot: CallState, report: Report, at: Timestamp): CallState {
    var r := Rewritten(u, report);
    var ok := r.status == ReportSucceeded;
    CallState(
      if ok then Executed else FailedCall,
      ErrorOf(r),
      if ok then Some(WithExecutionOutcome(snapshot.result, ResultOf(r).value)) else snapshot.result,
      r.delivery,
      Some(ExposureRequired(u, r)),
      at)
  }

  // ------------------------------------------------------------ sameness

  /** `sameAttemptOutcome`: everything but the time. */
  predicate SameAttemptOutcome(a: AttemptOutcome, b: AttemptOutcome) {
    a == b.(recordedAt := a.recordedAt)
  }

  /** `sameLegacyOutcome` and the comparison of delivery evidence: everything but time and actor. */
  predicate SameReceiptOutcome(a: ReceiptOutcome, b: ReceiptOutcome) {
    a == b.(recordedAt := a.recordedAt, recordedBy := a.recordedBy)
  }

  /** The same call apart from when it was written and whether its result is withheld. */
  predicate SameProjection(a: CallState, b: CallState) {
    a == b.(updatedAt := a.updatedAt, withheld := a.withheld)
  }

  /** Two reports that say the same, as far as the attempt records it. */
  predicate Alike(u: Setup, a: Report, b: Report) {
    OutcomeOf(u, a, "") == OutcomeOf(u, b, "")
  }

  lemma AlikeMeansSameOutcome(u: Setup, a: Report, b: Report, s: Timestamp, t: Timestamp)
    ensures SameAttemptOutcome(OutcomeOf(u, a, s), OutcomeOf(u, b, t)) <==> Alike(u, a, b)
  {
  }

  /** The attempt's outcome fixes the other two projections: hashes stand for what was hashed. */
  lemma AlikeReportsProjectAlike(u: Setup, a: Report, b: Report, snapshot: CallState, s: Timestamp, t: Timestamp)
    requires Alike(u, a, b)
    ensures a.status == b.status && a.delivery == b.delivery
    ensures SameReceiptOutcome(ReceiptOutcomeOf(u, a, s), ReceiptOutcomeOf(u, b, t))
    ensures SameProjection(TerminalCallOf(u, snapshot, a, s), TerminalCallOf(u, snapshot, b, t))
    ensures TerminalCallOf(u, snapshot, a, s).withheld == TerminalCallOf(u, snapshot, b, t).withheld
    ensures ExposureRequired(u, a) <==> ExposureRequired(u, b)
  {
  }

  /** An acceptable report of a classified MCP call that carries a child result always requires exposure first. */
  lemma ChildResultsRequireExposure(u: Setup, r: Report)
    requires ClassifiedMcp(u) && Acceptable(u, r)
    ensures r.status == ReportSucceeded || r.result.Some? ==> ExposureRequired(u, r)
    ensures !ExposureRequired(u, r) ==> Transport(r.status) && r.delivery == None
  {
  }

  /** `isModelVisibleResultWithheld`. */
  predicate ModelVisibleResultWithheld(c: CallState) {
    c.withheld == Some(true) && (c.status == Executed || (c.delivery.Some? && c.delivery.value.modelVisible))
  }

  /** The stored call shows a child result: it ended with one and does not withhold it. */
  predicate ShowsChildResult(c: CallState) {
    && (c.status == Executed || (c.status == FailedCall && c.delivery.Some? && c.delivery.value.modelVisible))
    && !ModelVisibleResultWithheld(c)
  }
}
