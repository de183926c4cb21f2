/**
  The stored records of one authorized tool call: the call, the human approval, the signed
  receipt, the execution grant and the execution attempt.

  Hashes and signatures are symbolic. `Hash` has one constructor for each kind of value the
  server hashes or signs, so two hashes are equal exactly when the same value was hashed:
  this is the assumption that SHA-256 and HMAC do not collide, and that nobody else holds the
  secret. `Literal` is any stored text that is no such hash.
 */
module Records {
  import opened Basics
  import CI = ContentInfluence

  type Timestamp = string

  /** Where two records are compared by hash, a JSON member that is `undefined` and one that is absent are both `None`. */
  datatype Json = Null | Bool(value: bool) | Number(digits: string) | Text(text: string) | List(items: seq<Json>) | Object(members: map<string, Json>)

  datatype Hash =
    | JsonHash(json: Json)
    | EnvelopeHash(envelope: EnvelopeBody)
    | DecisionHash(material: DecisionMaterial)
    | ApprovalHash(authorization: AuthorizationBody)
    | InfluenceHash(core: CI.Core<Hash>)
    | SnapshotHash(snapshot: CI.Snapshot)
    | SourceHash(source: Option<ResultSource>)
    | DeliveryHash(delivery: Delivery)
    | ReceiptDigest(receipt: ReceiptBody)
    | Signature(grant: GrantBody)
    | Literal(text: string)

  const DEFAULT_WORKSPACE := "default"

  function Workspace(id: Option<string>): string { id.GetOr(DEFAULT_WORKSPACE) }

  /** `value ?? null`, as it is hashed. */
  function OrNull(j: Option<Json>): Json { j.GetOr(Null) }

  /** `hashOptional`. */
  function HashOptional(j: Option<Json>): Option<Hash> {
    if j.Some? then Some(JsonHash(j.value)) else None
  }

  /** `hashOptional` of delivery evidence. */
  function HashDelivery(d: Option<Delivery>): Option<Hash> {
    if d.Some? then Some(DeliveryHash(d.value)) else None
  }

  // ------------------------------------------------------------ the tool call

  datatype Mode = ExternalGrant | LocalMock | OtherMode

  datatype Decision = Allow | Deny | RequireApproval

  datatype Prepared = Prepared(intentId: string, intentHash: string)

  /** The envelope without its own hash; `details` are the members no check looks into. */
  datatype EnvelopeBody = EnvelopeBody(
    mode: Mode, toolName: string, inputHash: Hash, protocol: string, sourceType: string,
    sourceId: Option<string>, prepared: Option<Prepared>, details: Json)

  datatype Envelope = Envelope(body: EnvelopeBody, envelopeHash: Hash)

  datatype Provider = Provider(id: Option<string>, version: Option<string>, ok: bool)

  datatype PolicyIdentity = PolicyIdentity(
    digest: Option<Hash>, version: Option<string>, digestAlgorithm: Option<string>, schemaVersion: Option<string>,
    provider: Option<Provider>)

  /** What a decision id is the hash of. */
  datatype DecisionMaterial = DecisionMaterial(
    decisionInputHash: Option<Hash>, outcome: Option<Decision>, policy: PolicyIdentity, requestId: Option<string>,
    tenantId: Option<string>, version: Option<string>, details: Json)

  /** `decisionTrace.decisionV1`: any object, so any member may be missing. */
  datatype DecisionV1 = DecisionV1(
    version: Option<string>, decisionId: Option<Hash>, decisionInputHash: Option<Hash>, requestId: Option<string>,
    tenantId: Option<string>, outcome: Option<Decision>, evaluatorVersion: Option<string>,
    policy: Option<PolicyIdentity>, details: Json)

  const DECISION_V1 := "actionproxy.decision.v1"

  /** `decisionTrace.canonicalRequestEvidence`, reduced to the members the checks read. */
  datatype RequestEvidence = RequestEvidence(
    sourceType: Option<string>, adapterId: Option<string>, protocol: Option<string>, tenantId: Option<string>,
    sessionPresent: bool, sessionVerified: bool, sessionId: Option<string>)

  datatype ResultSource = NoContent | Classified(integrity: CI.ContentExposures.Integrity, sourceId: Option<string>)

  type Evidence = CI.Evidence<Hash>

  /** Everything an execution never changes, except the action itself. */
  datatype CallIdentity = CallIdentity(
    id: string,
    workspaceId: Option<string>,
    toolName: string,
    requestedBy: string,
    requestedByPrincipalId: Option<string>,
    decision: Option<Decision>,
    decisionV1: Option<DecisionV1>,
    evidence: Option<RequestEvidence>,
    canonicalActionRequestHash: Option<Hash>,
    canonicalActionRequestVersion: Option<string>,
    canonicalDecisionInputHash: Option<Hash>,
    policyVersionHash: Option<Hash>,
    policyVersionId: Option<string>,
    contentInfluence: Option<Evidence>,
    influenceScopeId: Option<string>,
    resultSource: Option<ResultSource>,
    details: Json)

  /** The action: an approval may edit the input, and with it the envelope. */
  datatype Action = Action(
    input: Json, inputHash: Option<Hash>, envelope: Option<Envelope>, envelopeHash: Option<Hash>)

  datatype CallStatus = Submitted | Authorized | Executed | PendingApproval | Blocked | Rejected | FailedCall

  datatype Delivery = Delivery(modelVisible: bool, canonicalResultHash: Hash, byteCount: nat)

  datatype ToolCall = ToolCall(
    identity: CallIdentity,
    action: Action,
    status: CallStatus,
    error: Option<string>,
    result: Option<Json>,
    resultDelivery: Option<Delivery>,
    resultWithheld: Option<bool>,
    updatedAt: Timestamp)
  {
    function Id(): string { identity.id }
    function WorkspaceId(): string { Workspace(identity.workspaceId) }
    function ToolName(): string { identity.toolName }
    function InputHash(): Hash { action.inputHash.GetOr(JsonHash(action.input)) }
    function PreparedAction(): Option<Prepared> {
      if action.envelope.Some? then action.envelope.value.body.prepared else None
    }
  }

  /**
    `authoritativeInfluenceScopeId`: the scope of a call of a wrapped MCP tool, if everything the
    call says about its source, session and envelope agrees on it.
   */
  function AuthoritativeScopeId(c: CallIdentity, envelope: Option<Envelope>): (id: Option<string>)
    ensures id.Some? ==> id == c.influenceScopeId && CI.IsScopeId(id.value)
  {
    var e :- c.evidence;
    if e.sourceType == Some("mcp") && e.adapterId.Some? && e.protocol == Some("mcp")
      && e.tenantId == Some(Workspace(c.workspaceId))
      && e.sessionPresent && e.sessionVerified
      && c.influenceScopeId.Some? && e.sessionId == c.influenceScopeId && CI.IsScopeId(c.influenceScopeId.value)
      && envelope.Some? && envelope.value.body.protocol == "mcp"
      && envelope.value.body.sourceType == "mcp" && envelope.value.body.sourceId == e.adapterId
    then c.influenceScopeId else None
  }

  const WRAPPER_ADAPTER := "mcp-stdio:"

  /** `assertMcpAdapterAuthorization`, except for the comparison with the authenticated adapter and its session. */
  predicate McpEvidenceConsistent(c: CallIdentity, envelope: Option<Envelope>) {
    if c.evidence.Some? && c.evidence.value.sourceType == Some("mcp") then
      && AuthoritativeScopeId(c, envelope).Some?
      && WRAPPER_ADAPTER <= c.evidence.value.adapterId.value
    else !(c.influenceScopeId.Some? && CI.IsScopeId(c.influenceScopeId.value))
  }

  /** JavaScript's truth of an optional text or hash. */
  predicate Truthy(text: Option<string>) { text.Some? && text.value != "" }

  predicate TruthyHash(h: Option<Hash>) { h.Some? && h.value != Literal("") }

  /** The influence hashes of these records. */
  const HASHES: CI.Hashes<Hash> := CI.Hashes(c => InfluenceHash(c), s => SnapshotHash(s))

  // ------------------------------------------------------------ the approval

  /** The sorted lists without repetition are sets here. */
  datatype Requirements = Requirements(
    eligibleGroups: set<string>, eligibleUsers: Option<set<string>>, requiredApprovals: int, separationOfDuties: bool)

  datatype AuthorizationBinding = AuthorizationBinding(
    originalEnvelopeHash: Hash,
    originalInputHash: Hash,
    reviewHash: Hash,
    approvalId: string,
    requestedBy: string,
    requestedByPrincipalId: Option<string>,
    tenantId: string,
    toolCallId: string,
    decisionId: Option<Hash>,
    outcome: Decision,
    decisionVersion: Option<string>,
    policyDigest: Option<Hash>,
    evaluatorVersion: Option<string>,
    legacyVersionHash: Hash,
    legacyVersionId: Option<string>,
    providerId: Option<string>,
    providerVersion: Option<string>,
    policyVersion: Option<string>,
    decisionInputHash: Option<Hash>,
    requestHash: Option<Hash>,
    requestVersion: Option<string>,
    requirements: Requirements)

  datatype AuthorizationBody = AuthorizationBody(
    binding: AuthorizationBinding, expiresAt: Timestamp, issuedAt: Timestamp, nonce: string, version: string)

  datatype Authorization = Authorization(body: AuthorizationBody, authorizationHash: Hash)

  datatype ApprovalStatus = Pending | Approved | Cancelled | Expired | RejectedApproval | Superseded

  datatype ConsumedReason = ForApproved | ForOther

  datatype Approval = Approval(
    id: string,
    workspaceId: Option<string>,
    toolCallId: string,
    status: ApprovalStatus,
    requestedBy: string,
    requestedByPrincipalId: Option<string>,
    authorization: Option<Authorization>,
    authorizationConsumedAt: Option<Timestamp>,
    authorizationConsumedReason: Option<ConsumedReason>,
    originalInput: Json,
    originalInputHash: Option<Hash>,
    originalEnvelopeHash: Option<Hash>,
    approvedInputHash: Option<Hash>,
    approvedEnvelopeHash: Option<Hash>,
    reviewHash: Option<Hash>,
    approverUsers: Option<seq<string>>,
    approverGroups: Option<seq<string>>,
    requiredApprovals: Option<int>,
    separationOfDuties: Option<bool>)

  // ------------------------------------------------------------ receipt, grant, attempt

  datatype ReceiptOutcome = ReceiptOutcome(
    succeeded: bool, error: Option<string>, recordedAt: Timestamp, recordedBy: string,
    remediation: Option<Json>, result: Option<Json>, resultDelivery: Option<Delivery>)

  datatype ReceiptBody = ReceiptBody(
    id: string, workspaceId: string, toolCallId: string, toolName: string, humanApproval: bool, mode: Mode,
    approvalId: Option<string>, approvedInputHash: Hash, approvedEnvelopeHash: Hash, originalInputHash: Hash,
    originalEnvelopeHash: Hash, reviewHash: Option<Hash>, policyDecision: Option<Decision>,
    policyVersionHash: Option<Hash>, policyVersionId: Option<string>, expiresAt: Option<Timestamp>, details: Json)

  datatype Receipt = Receipt(body: ReceiptBody, receiptHash: Hash, outcome: Option<ReceiptOutcome>)

  /** What the grant's signature covers. */
  datatype GrantBody = GrantBody(
    id: string, workspaceId: string, toolCallId: string, toolName: string, actor: string, expiresAt: Timestamp,
    inputHash: Hash, nonce: string, approvedEnvelopeHash: Option<Hash>, approvedInputHash: Option<Hash>,
    policyVersionHash: Option<Hash>, receiptHash: Option<Hash>, receiptId: Option<string>)

  datatype Grant = Grant(body: GrantBody, signature: Hash, consumedAt: Option<Timestamp>)

  datatype AttemptState =
    | Reserved | Dispatched | Succeeded | FailedBeforeDispatch | FailedAfterDispatch | TimedOut | CancelledRun | UnknownOutcome

  predicate Terminal(s: AttemptState) { s != Reserved && s != Dispatched }

  datatype RetryDisposition = NoRetry | ExplicitNewAttempt | ManualReconciliation

  datatype AttemptOutcome = AttemptOutcome(
    status: AttemptState, known: bool, errorClass: Option<string>, errorCode: Option<string>,
    errorMessage: Option<string>, remediationHash: Option<Hash>, recordedAt: Timestamp,
    resultDeliveryHash: Option<Hash>, resultHash: Option<Hash>, retryDisposition: RetryDisposition)

  datatype AttemptBinding = AttemptBinding(
    actionEnvelopeHash: Option<Hash>,
    approvalAuthorizationHash: Option<Hash>,
    approvalAuthorizationNonce: Option<string>,
    approvalId: Option<string>,
    canonicalActionRequestHash: Option<Hash>,
    canonicalActionRequestVersion: Option<string>,
    canonicalDecisionInputHash: Option<Hash>,
    contentInfluenceBindingHash: Option<Hash>,
    decisionId: Option<Hash>,
    decisionVersion: Option<string>,
    influenceScopeId: Option<string>,
    policyVersionHash: Option<Hash>,
    receiptHash: Option<Hash>,
    receiptId: Option<string>,
    resultSourceHash: Option<Hash>)

  datatype AttemptIdentity = AttemptIdentity(
    id: string, workspaceId: string, toolCallId: string, inputHash: Hash, mode: Mode, externalRunner: bool,
    idempotencyNone: bool, neverAutomatic: bool, reservationOwner: string, attemptNumber: nat, version: string)

  datatype Attempt = Attempt(
    identity: AttemptIdentity,
    binding: AttemptBinding,
    grantId: Option<string>,
    state: AttemptState,
    dispatchedAt: Option<Timestamp>,
    completedAt: Option<Timestamp>,
    outcome: Option<AttemptOutcome>,
    updatedAt: Timestamp)

  const ATTEMPT_VERSION := "actionproxy.execution-attempt.v1"

  /** The records of one tool call as the store holds them. */
  datatype Current = Current(attempt: Attempt, grant: Grant, receipt: Receipt, toolCall: ToolCall)
}
