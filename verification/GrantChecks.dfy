/**
  What must hold when an execution grant is consumed: the checks of the service on the records
  it reads, the binding of the one-shot execution authorization, and the publication that
  created grant, receipt and attempt for an approved call.
 */
module GrantChecks {
  import opened Basics
  import opened Records
  import AA = ApprovalAuthorization
  import CI = ContentInfluence

  // ------------------------------------------------------------ publication

  datatype Publication = Publication(approvalId: string, attempt: Attempt, grant: Grant, receipt: Receipt, toolCall: ToolCall)

  function Member(j: Option<Json>, name: string): Option<Json> {
    if j.Some? && j.value.Object? && name in j.value.members then Some(j.value.members[name]) else None
  }

  /** The call's result names the grant and the receipt it was authorized with. */
  predicate ResultNamesGrant(p: Publication, receiptHashText: Hash -> string) {
    && Member(p.toolCall.result, "externalExecution") == Some(Bool(true))
    && Member(Member(p.toolCall.result, "grant"), "id") == Some(Text(p.grant.body.id))
    && Member(Member(p.toolCall.result, "receipt"), "id") == Some(Text(p.receipt.body.id))
    && Member(Member(p.toolCall.result, "receipt"), "receiptHash") == Some(Text(receiptHashText(p.receipt.receiptHash)))
  }

  /** The assertion on a publication: no mismatch is listed. */
  predicate PublicationCandidate(p: Publication, text: Hash -> string) {
    var t, r, g, a := p.toolCall, p.receipt.body, p.grant.body, p.attempt;
    && p.approvalId != ""
    && t.status == Authorized
    && t.identity.decision == Some(RequireApproval)
    && t.action.envelope.Some? && t.action.envelope.value.body.mode == ExternalGrant
    && t.action.inputHash == Some(JsonHash(t.action.input))
    && r.humanApproval && r.mode == ExternalGrant && p.receipt.outcome == None
    && r.approvalId == Some(p.approvalId)
    && r.workspaceId == t.WorkspaceId() && r.toolCallId == t.Id() && r.toolName == t.ToolName()
    && Some(r.approvedInputHash) == t.action.inputHash
    && Some(r.approvedEnvelopeHash) == t.action.envelopeHash
    && g.workspaceId == t.WorkspaceId() && g.toolCallId == t.Id() && g.toolName == t.ToolName()
    && Some(g.inputHash) == t.action.inputHash
    && g.approvedInputHash == Some(r.approvedInputHash)
    && g.approvedEnvelopeHash == Some(r.approvedEnvelopeHash)
    && g.policyVersionHash == r.policyVersionHash
    && g.receiptId == Some(r.id) && g.receiptHash == Some(p.receipt.receiptHash)
    && p.grant.consumedAt == None
    && a.identity.version == ATTEMPT_VERSION && a.identity.attemptNumber == 1
    && a.state == Reserved
    && a.identity.mode == ExternalGrant && a.identity.externalRunner
    && a.identity.idempotencyNone && a.identity.neverAutomatic
    && a.outcome == None && a.dispatchedAt == None && a.completedAt == None
    && a.identity.workspaceId == t.WorkspaceId() && a.identity.toolCallId == t.Id()
    && Some(a.identity.inputHash) == t.action.inputHash
    && a.grantId == Some(g.id)
    && a.binding.approvalId == Some(p.approvalId)
    && a.binding.receiptId == Some(r.id) && a.binding.receiptHash == Some(p.receipt.receiptHash)
    && a.binding.actionEnvelopeHash == t.action.envelopeHash
    && a.binding.canonicalActionRequestHash == t.identity.canonicalActionRequestHash
    && a.binding.canonicalActionRequestVersion == t.identity.canonicalActionRequestVersion
    && a.binding.canonicalDecisionInputHash == t.identity.canonicalDecisionInputHash
    && a.binding.policyVersionHash == t.identity.policyVersionHash
    && ResultNamesGrant(p, text)
  }

  /** The publication belongs to the approval and the pending call as they are stored now. */
  predicate PublicationMatchesCurrent(p: Publication, ap: Approval, now: ToolCall) {
    var t, r, a, d := p.toolCall, p.receipt.body, p.attempt, p.toolCall.identity.decisionV1;
    && ap.id == p.approvalId
    && Workspace(ap.workspaceId) == t.WorkspaceId()
    && ap.toolCallId == t.Id()
    && ap.status == Approved
    && ap.authorizationConsumedReason == Some(ForApproved)
    && ap.authorizationConsumedAt.Some?
    && ap.authorization.Some?
    && ap.approvedInputHash == Some(r.approvedInputHash)
    && ap.approvedEnvelopeHash == Some(r.approvedEnvelopeHash)
    && ap.originalInputHash == Some(r.originalInputHash)
    && ap.originalEnvelopeHash == Some(r.originalEnvelopeHash)
    && ap.reviewHash == r.reviewHash
    && a.binding.approvalAuthorizationHash == Some(ap.authorization.value.authorizationHash)
    && a.binding.approvalAuthorizationNonce == Some(ap.authorization.value.body.nonce)
    && a.binding.decisionId == (if d.Some? then d.value.decisionId else None)
    && a.binding.decisionVersion == (if d.Some? then d.value.version else None)
    && now.Id() == t.Id()
    && now.WorkspaceId() == t.WorkspaceId()
    && now.status == PendingApproval
    && now.ToolName() == t.ToolName()
    && now.identity.decision == t.identity.decision
    && now.identity.policyVersionHash == t.identity.policyVersionHash
    && now.identity == t.identity && now.resultDelivery == t.resultDelivery && now.resultWithheld == t.resultWithheld
  }

  /** What the store holds for the call: nothing yet, or the parts of a publication. */
  datatype Stored = Stored(
    approval: Approval, toolCall: ToolCall, attempt: Option<Attempt>, grant: Option<Grant>, receipt: Option<Receipt>)

  datatype Published = Created | Replay | Conflict | StateMismatch | BindingMismatch | Refused

  predicate SamePublication(p: Publication, s: Stored) {
    s.attempt == Some(p.attempt) && s.grant == Some(p.grant) && s.receipt == Some(p.receipt) && s.toolCall == p.toolCall
  }

  /** `publishApprovedExternalAuthorizationAtomically`, on the records of the call. */
  function Publish(p: Publication, text: Hash -> string, s: Stored): (Stored, Published) {
    if !PublicationCandidate(p, text) then (s, Refused)
    else if s.attempt.Some? || s.receipt.Some? || s.grant.Some? || s.toolCall.status == Authorized then
      (s, if SamePublication(p, s) then Replay else Conflict)
    else if s.approval.status != Approved || s.toolCall.status != PendingApproval then (s, StateMismatch)
    else if !PublicationMatchesCurrent(p, s.approval, s.toolCall) then (s, BindingMismatch)
    else (Stored(s.approval, p.toolCall, Some(p.attempt), Some(p.grant), Some(p.receipt)), Created)
  }

  // ------------------------------------------------------------ checks on consumption

  predicate AttemptMatchesGrant(a: Attempt, g: GrantBody, requireBinding: bool) {
    && a.identity.mode == ExternalGrant && a.identity.externalRunner
    && a.identity.idempotencyNone && a.identity.neverAutomatic
    && a.identity.workspaceId == g.workspaceId
    && a.identity.toolCallId == g.toolCallId
    && a.identity.inputHash == g.inputHash
    && a.binding.actionEnvelopeHash == g.approvedEnvelopeHash
    && a.binding.policyVersionHash == g.policyVersionHash
    && a.binding.receiptHash == g.receiptHash
    && a.binding.receiptId == g.receiptId
    && (requireBinding ==> a.grantId == Some(g.id))
  }

  /** The decision as the service identifies it: complete, of this call, and with a genuine id. */
  function DecisionIdentityOf(t: ToolCall): Option<DecisionV1> {
    var d :- t.identity.decisionV1;
    if d.version != Some(DECISION_V1) || d.decisionId.None? || d.decisionInputHash.None? || d.requestId.None?
      || d.tenantId.None? || d.outcome.None?
      || d.requestId != Some(t.Id()) || d.tenantId != Some(t.WorkspaceId())
      || d.decisionInputHash != t.identity.canonicalDecisionInputHash
      || d.outcome != t.identity.decision
      || d.policy.None? || d.policy.value.provider.None?
      || d.policy.value.digest != t.identity.policyVersionHash
      || d.policy.value.version != t.identity.policyVersionId
      || !d.policy.value.provider.value.ok
      || d.decisionId != Some(DecisionHash(DecisionMaterial(
           d.decisionInputHash, d.outcome, d.policy.value, d.requestId, d.tenantId, d.version, d.details)))
    then None else Some(d)
  }

  predicate RequiresMcpResultDelivery(t: ToolCall) {
    && t.identity.evidence.Some? && t.identity.evidence.value.sourceType == Some("mcp")
    && t.identity.resultSource.Some? && t.identity.resultSource.value.Classified?
  }

  function InfluenceHashOf(t: ToolCall): Option<Hash> {
    if t.identity.contentInfluence.None? then None else CI.ValidBindingHash(HASHES, t.identity.contentInfluence.value)
  }

  /** `currentToolCallMismatch` finds nothing. */
  predicate ToolCallCurrent(t: ToolCall, a: Attempt, g: GrantBody, allowTerminal: bool) {
    var d, b := DecisionIdentityOf(t), a.binding;
    && t.WorkspaceId() == g.workspaceId
    && t.Id() == g.toolCallId && t.Id() == a.identity.toolCallId
    && t.ToolName() == g.toolName
    && (t.status == Authorized || (allowTerminal && (t.status == Executed || t.status == FailedCall)))
    && (RequiresMcpResultDelivery(t) && t.status == Authorized ==> t.resultWithheld == Some(true))
    && (t.identity.decision == Some(Allow) || t.identity.decision == Some(RequireApproval))
    && t.InputHash() == JsonHash(t.action.input) && t.InputHash() == g.inputHash
    && (t.action.envelope.Some? ==>
          var e := t.action.envelope.value;
          && e.body.mode == ExternalGrant && e.body.toolName == t.ToolName()
          && e.body.inputHash == t.InputHash() && e.envelopeHash == EnvelopeHash(e.body))
    && t.action.envelopeHash == b.actionEnvelopeHash
    && t.identity.canonicalActionRequestHash == b.canonicalActionRequestHash
    && t.identity.canonicalActionRequestVersion == b.canonicalActionRequestVersion
    && Coalesce(t.identity.canonicalDecisionInputHash, if d.Some? then d.value.decisionInputHash else None)
       == b.canonicalDecisionInputHash
    && (t.identity.decisionV1.Some? ==> d.Some?)
    && (if d.Some? then d.value.decisionId else None) == b.decisionId
    && (if d.Some? then d.value.version else None) == b.decisionVersion
    && (d.Some? ==> d.value.outcome == t.identity.decision)
    && t.identity.policyVersionHash == b.policyVersionHash
    && (t.identity.contentInfluence.Some? ==> InfluenceHashOf(t).Some?)
    && InfluenceHashOf(t) == b.contentInfluenceBindingHash
    && t.identity.influenceScopeId == b.influenceScopeId
    && Some(SourceHash(t.identity.resultSource)) == b.resultSourceHash
  }

  predicate ReceiptGenuine(r: Receipt) { r.receiptHash == ReceiptDigest(r.body) }

  /** `currentReceiptMismatch` finds nothing. */
  predicate ReceiptCurrent(parse: AA.Parse, receipt: Option<Receipt>, t: ToolCall, a: Attempt, g: GrantBody, now: int) {
    match receipt
    case None => !Truthy(g.receiptId) && !Truthy(a.binding.receiptId)
    case Some(record) =>
      var r := record.body;
      && r.workspaceId == a.identity.workspaceId
      && r.toolCallId == t.Id() && Some(r.id) == a.binding.receiptId
      && r.toolName == t.ToolName()
      && r.mode == ExternalGrant
      && !(Truthy(r.expiresAt) && parse(r.expiresAt.value).Some? && parse(r.expiresAt.value).value <= now)
      && Some(record.receiptHash) == a.binding.receiptHash && Some(record.receiptHash) == g.receiptHash
      && r.approvedInputHash == a.identity.inputHash && r.approvedInputHash == g.inputHash
      && Some(r.approvedEnvelopeHash) == a.binding.actionEnvelopeHash
      && Some(r.approvedEnvelopeHash) == g.approvedEnvelopeHash
      && r.policyDecision == t.identity.decision
      && r.policyVersionHash == t.identity.policyVersionHash
      && r.policyVersionId == t.identity.policyVersionId
      && r.approvalId == a.binding.approvalId
  }

  /** The call as it was when the approval was asked for. */
  function OriginalCall(t: ToolCall, ap: Approval): ToolCall {
    t.(action := t.action.(input := ap.originalInput, inputHash := ap.originalInputHash,
                           envelopeHash := ap.originalEnvelopeHash),
       status := PendingApproval)
  }

  /** `currentApprovalMismatch` finds nothing. */
  predicate ApprovalCurrent(parse: AA.Parse, approval: Option<Approval>, t: ToolCall, a: Attempt, g: GrantBody, now: int) {
    && approval.Some?
    && var ap := approval.value;
       && ap.status == Approved
       && ap.authorizationConsumedReason == Some(ForApproved) && Truthy(ap.authorizationConsumedAt)
       && ap.authorization.Some?
       && var auth := ap.authorization.value;
          && AA.IsValid(parse, auth)
          && !AA.Expired(parse, auth, now)
          && Some(auth.authorizationHash) == a.binding.approvalAuthorizationHash
          && Some(auth.body.nonce) == a.binding.approvalAuthorizationNonce
          && Workspace(ap.workspaceId) == a.identity.workspaceId
          && ap.toolCallId == t.Id() && Some(ap.id) == a.binding.approvalId
          && ap.approvedInputHash == Some(g.inputHash) && ap.approvedInputHash == Some(a.identity.inputHash)
          && ap.approvedEnvelopeHash == a.binding.actionEnvelopeHash
          && ap.approvedEnvelopeHash == g.approvedEnvelopeHash
          && AA.Matches(parse, auth, ap, OriginalCall(t, ap))
  }

  datatype ConsumeInput = ConsumeInput(input: Json, policyVersionHash: Option<Hash>, toolCallId: string, toolName: string)

  /** The records one consumption reads, each at its own moment. */
  datatype Reads = Reads(
    grant: Grant, activePolicy: Option<Hash>, receipt: Option<Receipt>, attempt: Attempt, toolCall: ToolCall,
    approval: Option<Approval>, grantCheckedAt: int, receiptCheckedAt: int, approvalCheckedAt: int, boundAt: int)

  predicate GrantUsable(parse: AA.Parse, i: ConsumeInput, grant: Grant, activePolicy: Option<Hash>, now: int) {
    var g := grant.body;
    && grant.consumedAt == None
    && !(parse(g.expiresAt).Some? && parse(g.expiresAt).value <= now)
    && g.toolCallId == i.toolCallId && g.toolName == i.toolName
    && (TruthyHash(g.policyVersionHash) ==> TruthyHash(activePolicy) && g.policyVersionHash == activePolicy)
    && (TruthyHash(g.policyVersionHash) && TruthyHash(i.policyVersionHash) ==> g.policyVersionHash == i.policyVersionHash)
    && g.inputHash == JsonHash(i.input)
    && grant.signature == Signature(g)
  }

  predicate GrantReceiptUsable(g: GrantBody, receipt: Option<Receipt>) {
    Truthy(g.receiptId) ==>
      && receipt.Some? && receipt.value.body.id == g.receiptId.value
      && ReceiptGenuine(receipt.value)
      && (TruthyHash(g.receiptHash) ==> g.receiptHash == Some(receipt.value.receiptHash))
      && (TruthyHash(g.approvedInputHash) ==> g.approvedInputHash == Some(receipt.value.body.approvedInputHash))
      && (TruthyHash(g.approvedEnvelopeHash) ==> g.approvedEnvelopeHash == Some(receipt.value.body.approvedEnvelopeHash))
  }

  /** The approval is the bound one and still holds; without a bound one there is none. */
  predicate ApprovalUsable(parse: AA.Parse, approval: Option<Approval>, t: ToolCall, a: Attempt, g: GrantBody, now: int) {
    if Truthy(a.binding.approvalId) then ApprovalCurrent(parse, approval, t, a, g, now) else approval == None
  }

  /** Every check of `consumeGrant` before the execution authorization is bound. */
  predicate ChecksPass(parse: AA.Parse, i: ConsumeInput, r: Reads) {
    && GrantUsable(parse, i, r.grant, r.activePolicy, r.grantCheckedAt)
    && GrantReceiptUsable(r.grant.body, r.receipt)
    && r.attempt.state == Reserved && AttemptMatchesGrant(r.attempt, r.grant.body, true)
    && r.toolCall.Id() == r.grant.body.toolCallId
    && ToolCallCurrent(r.toolCall, r.attempt, r.grant.body, false)
    && ReceiptCurrent(parse, r.receipt, r.toolCall, r.attempt, r.grant.body, r.receiptCheckedAt)
    && ApprovalUsable(parse, r.approval, r.toolCall, r.attempt, r.grant.body, r.approvalCheckedAt)
  }

  // ------------------------------------------------------------ the execution authorization

  /** `assertApprovalBinding` does not throw. */
  predicate ApprovalBinds(parse: AA.Parse, approval: Option<Approval>, a: Attempt, t: ToolCall, inputHash: Hash, now: int) {
    if !Truthy(a.binding.approvalId) then
      approval == None && !TruthyHash(a.binding.approvalAuthorizationHash) && !Truthy(a.binding.approvalAuthorizationNonce)
    else
      && approval.Some?
      && var ap := approval.value;
         && Some(ap.id) == a.binding.approvalId && ap.toolCallId == t.Id()
         && Workspace(ap.workspaceId) == a.identity.workspaceId
         && ap.status == Approved && ap.authorizationConsumedReason == Some(ForApproved)
         && Truthy(ap.authorizationConsumedAt) && ap.authorization.Some?
         && AA.IsValid(parse, ap.authorization.value)
         && !AA.Expired(parse, ap.authorization.value, now)
         && Some(ap.authorization.value.authorizationHash) == a.binding.approvalAuthorizationHash
         && Some(ap.authorization.value.body.nonce) == a.binding.approvalAuthorizationNonce
         && Coalesce(ap.approvedInputHash, ap.originalInputHash) == Some(inputHash)
         && AA.Matches(parse, ap.authorization.value, ap, OriginalCall(t, ap))
  }

  function NonEmptyHash(h: Option<Hash>): Option<Hash> { if TruthyHash(h) then h else None }

  /** `buildExecutionAuthorizationBinding` does not throw. */
  predicate Bindable(parse: AA.Parse, approval: Option<Approval>, a: Attempt, t: ToolCall, now: int) {
    var b, d := a.binding, t.identity.decisionV1;
    var identified := d.Some? && d.value.version == Some(DECISION_V1);
    && (a.state == Reserved || a.state == Dispatched)
    && a.identity.workspaceId == t.WorkspaceId()
    && a.identity.toolCallId == t.Id()
    && a.identity.inputHash == t.InputHash()
    && TruthyHash(t.action.envelopeHash) && b.actionEnvelopeHash == t.action.envelopeHash
    && TruthyHash(t.identity.policyVersionHash) && b.policyVersionHash == t.identity.policyVersionHash
    && t.identity.decision.Some?
    && b.canonicalActionRequestHash == t.identity.canonicalActionRequestHash
    && b.canonicalActionRequestVersion == t.identity.canonicalActionRequestVersion
    && b.canonicalDecisionInputHash == t.identity.canonicalDecisionInputHash
    && (t.identity.contentInfluence.Some? ==> InfluenceHashOf(t).Some?)
    && b.contentInfluenceBindingHash == InfluenceHashOf(t)
    && b.influenceScopeId == t.identity.influenceScopeId
    && b.resultSourceHash == Some(SourceHash(t.identity.resultSource))
    && a.identity.idempotencyNone && a.identity.neverAutomatic
    && (a.identity.mode == LocalMock ==> !a.identity.externalRunner && a.grantId == None)
    && (a.identity.mode == ExternalGrant ==> a.identity.externalRunner && Truthy(a.grantId))
    && ApprovalBinds(parse, approval, a, t, t.InputHash(), now)
    && b.decisionId == (if identified then NonEmptyHash(d.value.decisionId) else None)
    && b.decisionVersion == (if identified then Some(DECISION_V1) else None)
  }

  /**
    After the checks the binding can only fail for want of an envelope hash, a policy hash or a
    grant id, for approval state on an attempt without an approval, or for an approval that
    expired between the two checks.
   */
  lemma BindingAddsFewConditions(parse: AA.Parse, i: ConsumeInput, r: Reads)
    requires ChecksPass(parse, i, r)
    ensures Bindable(parse, r.approval, r.attempt, r.toolCall, r.boundAt) <==>
              && TruthyHash(r.toolCall.action.envelopeHash)
              && TruthyHash(r.toolCall.identity.policyVersionHash)
              && r.grant.body.id != ""
              && (if Truthy(r.attempt.binding.approvalId)
                  then !AA.Expired(parse, r.approval.value.authorization.value, r.boundAt)
                  else !TruthyHash(r.attempt.binding.approvalAuthorizationHash)
                       && !Truthy(r.attempt.binding.approvalAuthorizationNonce))
  {
    var d := DecisionIdentityOf(r.toolCall);
    assert d.Some? ==> r.toolCall.identity.canonicalDecisionInputHash.Some?;
  }

  // ------------------------------------------------------------ what a dispatch guarantees

  /** Publication binds the attempt to the approval; a created one can only be replayed afterwards. */
  lemma PublicationBindsApproval(p: Publication, text: Hash -> string, s: Stored, q: Publication)
    requires Publish(p, text, s).1 == Created
    ensures var after := Publish(p, text, s).0;
            && p.attempt.binding.approvalId == Some(s.approval.id) && Truthy(p.attempt.binding.approvalId)
            && s.approval.status == Approved && s.approval.authorizationConsumedReason == Some(ForApproved)
            && s.approval.approvedInputHash == Some(JsonHash(p.toolCall.action.input))
            && after.toolCall.identity == s.toolCall.identity
            && Publish(q, text, after).0 == after
            && (Publish(q, text, after).1 == Replay <==> q == p)
            && Publish(q, text, after).1 != Created
  {
  }

  /** The attempt was made for this approval as it was then: with its authorization and its approved input. */
  predicate BoundToApproval(a: Attempt, ap: Approval) {
    && Truthy(a.binding.approvalId) && a.binding.approvalId == Some(ap.id)
    && ap.status == Approved && ap.authorizationConsumedReason == Some(ForApproved) && ap.authorization.Some?
    && a.binding.approvalAuthorizationHash == Some(ap.authorization.value.authorizationHash)
    && ap.approvedInputHash == Some(a.identity.inputHash)
  }

  lemma PublicationBinds(p: Publication, text: Hash -> string, s: Stored)
    requires Publish(p, text, s).1 == Created
    ensures BoundToApproval(p.attempt, s.approval) && p.attempt.identity.inputHash == JsonHash(p.toolCall.action.input)
  {
  }

  /** The approval a consumption accepts, and what it says of the bound one. */
  predicate HonoursApproval(parse: AA.Parse, bound: Approval, i: ConsumeInput, r: Reads) {
    && r.approval.Some? && r.approval.value.authorization.Some? && bound.authorization.Some?
    && var ap, auth := r.approval.value, r.approval.value.authorization.value;
       && ap.id == bound.id
       && ap.status == Approved && ap.authorizationConsumedReason == Some(ForApproved)
       && AA.IsValid(parse, auth) && !AA.Expired(parse, auth, r.approvalCheckedAt)
       && (AA.IsValid(parse, bound.authorization.value) ==> auth == bound.authorization.value)
       && AA.Matches(parse, auth, ap, OriginalCall(r.toolCall, ap))
       && ap.approvedInputHash == bound.approvedInputHash == Some(JsonHash(i.input))
       && i.input == r.toolCall.action.input
  }

  /**
    A consumption that passes its checks on an attempt made for an approval: the approval it
    reads is approved, was consumed as approved, is not expired, carries the very authorization
    that was bound when the attempt was made, and still matches the original call field by
    field; and the runner's input is the input that was approved, edits included.
   */
  lemma ChecksHonourBinding(parse: AA.Parse, bound: Approval, i: ConsumeInput, r: Reads)
    requires BoundToApproval(r.attempt, bound)
    requires ChecksPass(parse, i, r)
    ensures HonoursApproval(parse, bound, i, r)
  {
  }

  // ------------------------------------------------------------ creation of an attempt

  /** The lenient reading of a trace that `buildExecutionAttempt` copies into the binding. */
  function BindingOf(t: ToolCall, approval: Option<Approval>, receipt: Option<Receipt>): AttemptBinding {
    var d := t.identity.decisionV1;
    var auth := if approval.Some? then approval.value.authorization else None;
    AttemptBinding(
      t.action.envelopeHash,
      if auth.Some? then Some(auth.value.authorizationHash) else None,
      if auth.Some? then Some(auth.value.body.nonce) else None,
      if approval.Some? then Some(approval.value.id) else if receipt.Some? then receipt.value.body.approvalId else None,
      t.identity.canonicalActionRequestHash,
      t.identity.canonicalActionRequestVersion,
      t.identity.canonicalDecisionInputHash,
      if InfluenceHashOf(t).Some? then InfluenceHashOf(t)
      else if t.identity.contentInfluence.Some? then Some(Literal("invalid")) else None,
      if d.Some? then d.value.decisionId else None,
      if d.Some? then d.value.version else None,
      t.identity.influenceScopeId,
      t.identity.policyVersionHash,
      if receipt.Some? then Some(receipt.value.receiptHash) else None,
      if receipt.Some? then Some(receipt.value.body.id) else None,
      Some(SourceHash(t.identity.resultSource)))
  }

  /** `buildExecutionAttempt` for an external grant. */
  function BuildAttempt(
    t: ToolCall, approval: Option<Approval>, receipt: Option<Receipt>, id: string, owner: string,
    inputHash: Hash, now: Timestamp): Attempt
  {
    Attempt(AttemptIdentity(id, t.WorkspaceId(), t.Id(), inputHash, ExternalGrant, true, true, true, owner, 1, ATTEMPT_VERSION),
            BindingOf(t, approval, receipt), None, Reserved, None, None, None, now)
  }

  /**
    An attempt built from a call agrees with that call: as long as the grant and the call do
    not change, what can still fail is only what was wrong with the call to begin with.
   */
  lemma BuiltAttemptIsCurrent(
    t: ToolCall, approval: Option<Approval>, receipt: Option<Receipt>, id: string, owner: string, g: GrantBody, now: Timestamp)
    requires g.toolCallId == t.Id() && g.workspaceId == t.WorkspaceId() && g.toolName == t.ToolName()
    requires g.inputHash == t.InputHash()
    ensures var a := BuildAttempt(t, approval, receipt, id, owner, t.InputHash(), now);
            ToolCallCurrent(t, a, g, false) <==>
              && t.status == Authorized
              && (RequiresMcpResultDelivery(t) ==> t.resultWithheld == Some(true))
              && (t.identity.decision == Some(Allow) || t.identity.decision == Some(RequireApproval))
              && t.InputHash() == JsonHash(t.action.input)
              && (t.action.envelope.Some? ==>
                    var e := t.action.envelope.value;
                    && e.body.mode == ExternalGrant && e.body.toolName == t.ToolName()
                    && e.body.inputHash == t.InputHash() && e.envelopeHash == EnvelopeHash(e.body))
              && (t.identity.decisionV1.Some? ==> DecisionIdentityOf(t).Some?)
              && (t.identity.contentInfluence.Some? ==> InfluenceHashOf(t).Some?)
  {
  }
}
