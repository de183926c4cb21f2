/**
  The way of an approved call, from the finalized approval to the dispatch: what the gate builds
  for publication, and that it is published and passes every check of consumption until
  something expires.
 */
module ApprovedDispatch {
  import opened Basics
  import opened Records
  import opened GrantChecks
  import AA = ApprovalAuthorization

  /** The ids and times that the gate derives for one publication. */
  datatype Issue = Issue(
    receiptId: string, grantId: string, attemptId: string, owner: string, actor: string, nonce: string,
    issuedAt: Timestamp, grantExpiresAt: Timestamp)

  /** The call with the approved input and its envelope. */
  function ApprovedCall(t: ToolCall, input: Json, e: Envelope): ToolCall {
    t.(action := Action(input, Some(e.body.inputHash), Some(e), Some(e.envelopeHash)))
  }

  /** `prepareActionReceipt` for a human approval, signed. */
  function ApprovalReceipt(t: ToolCall, ap: Approval, e: Envelope, i: Issue, details: Json): Receipt {
    var body := ReceiptBody(
      i.receiptId, t.WorkspaceId(), t.Id(), t.ToolName(), true, e.body.mode, Some(ap.id), e.body.inputHash,
      e.envelopeHash, ap.originalInputHash.GetOr(e.body.inputHash), ap.originalEnvelopeHash.GetOr(e.envelopeHash),
      ap.reviewHash, t.identity.decision, t.identity.policyVersionHash, t.identity.policyVersionId, None, details);
    Receipt(body, ReceiptDigest(body), None)
  }

  /** `prepareGrant`. */
  function PreparedGrant(t: ToolCall, r: Receipt, i: Issue): Grant {
    var body := GrantBody(
      i.grantId, t.WorkspaceId(), t.Id(), t.ToolName(), i.actor, i.grantExpiresAt, t.InputHash(), i.nonce,
      Some(r.body.approvedEnvelopeHash), Some(r.body.approvedInputHash), t.identity.policyVersionHash,
      Some(r.receiptHash), Some(r.body.id));
    Grant(body, Signature(body), None)
  }

  /** The result of an authorized call, as far as publication looks into it. */
  function AuthorizedResult(g: Grant, r: Receipt, text: Hash -> string): Json {
    Object(map[
      "externalExecution" := Bool(true),
      "grant" := Object(map["id" := Text(g.body.id)]),
      "receipt" := Object(map["id" := Text(r.body.id), "receiptHash" := Text(text(r.receiptHash))])])
  }

  /** What `publishApprovedPreparedExternalAuthorization` hands to the store. */
  function PublicationFor(
    t: ToolCall, ap: Approval, input: Json, e: Envelope, i: Issue, details: Json, text: Hash -> string): Publication
  {
    var base := ApprovedCall(t, input, e);
    var r := ApprovalReceipt(base, ap, e, i, details);
    var g := PreparedGrant(base, r, i);
    var a := BuildAttempt(base, Some(ap), Some(r), i.attemptId, i.owner, e.body.inputHash, i.issuedAt);
    Publication(ap.id, a.(grantId := Some(g.body.id)), g, r,
                base.(result := Some(AuthorizedResult(g, r, text)), status := Authorized, updatedAt := i.issuedAt))
  }

  /** A pending call whose approval was finalized for this input and this envelope. */
  predicate ApprovedFor(parse: AA.Parse, t: ToolCall, ap: Approval, input: Json, e: Envelope) {
    && t.status == PendingApproval && t.identity.decision == Some(RequireApproval)
    && ap.id != "" && ap.status == Approved && ap.authorizationConsumedReason == Some(ForApproved)
    && Truthy(ap.authorizationConsumedAt) && ap.authorization.Some?
    && ap.toolCallId == t.Id() && Workspace(ap.workspaceId) == t.WorkspaceId()
    && AA.Matches(parse, ap.authorization.value, ap, t)
    && ap.approvedInputHash == Some(JsonHash(input)) && ap.approvedEnvelopeHash == Some(e.envelopeHash)
    && e.body.mode == ExternalGrant && e.body.toolName == t.ToolName() && e.body.inputHash == JsonHash(input)
    && e.envelopeHash == EnvelopeHash(e.body)
  }

  /** The call's own evidence is in order. */
  predicate EvidenceInOrder(t: ToolCall) {
    && TruthyHash(t.identity.policyVersionHash)
    && (t.identity.decisionV1.Some? ==> DecisionIdentityOf(t).Some?)
    && (t.identity.contentInfluence.Some? ==> InfluenceHashOf(t).Some?)
    && (RequiresMcpResultDelivery(t) ==> t.resultWithheld == Some(true))
  }

  /** The decision that a strict reading identifies does not depend on the action or the outcome. */
  lemma SameEvidence(t: ToolCall, u: ToolCall)
    requires t.identity == u.identity
    ensures DecisionIdentityOf(t) == DecisionIdentityOf(u) && InfluenceHashOf(t) == InfluenceHashOf(u)
    ensures AA.DecisionIdentityOf(t) == AA.DecisionIdentityOf(u)
    ensures RequiresMcpResultDelivery(t) <==> RequiresMcpResultDelivery(u)
  {
  }

  lemma ResultNamesItsGrant(
    t: ToolCall, ap: Approval, input: Json, e: Envelope, i: Issue, details: Json, text: Hash -> string)
    ensures ResultNamesGrant(PublicationFor(t, ap, input, e, i, details, text), text)
  {
  }

  lemma PublicationIsCandidate(
    parse: AA.Parse, t: ToolCall, ap: Approval, input: Json, e: Envelope, i: Issue, details: Json, text: Hash -> string)
    requires ApprovedFor(parse, t, ap, input, e)
    ensures PublicationCandidate(PublicationFor(t, ap, input, e, i, details, text), text)
  {
    ResultNamesItsGrant(t, ap, input, e, i, details, text);
  }

  lemma PublicationIsForThePendingCall(
    parse: AA.Parse, t: ToolCall, ap: Approval, input: Json, e: Envelope, i: Issue, details: Json, text: Hash -> string)
    requires ApprovedFor(parse, t, ap, input, e)
    ensures PublicationMatchesCurrent(PublicationFor(t, ap, input, e, i, details, text), ap, t)
  {
  }

  /** The gate's publication of an approved call is created. */
  lemma ApprovedCallIsPublished(
    parse: AA.Parse, t: ToolCall, ap: Approval, input: Json, e: Envelope, i: Issue, details: Json, text: Hash -> string)
    requires ApprovedFor(parse, t, ap, input, e)
    ensures var p := PublicationFor(t, ap, input, e, i, details, text);
            Publish(p, text, Stored(ap, t, None, None, None)).1 == Created
  {
    PublicationIsCandidate(parse, t, ap, input, e, i, details, text);
    PublicationIsForThePendingCall(parse, t, ap, input, e, i, details, text);
  }

  /** What a consumption reads if nothing was changed since publication. */
  function UnchangedReads(p: Publication, ap: Approval, activePolicy: Option<Hash>, now: int): Reads {
    Reads(p.grant, activePolicy, Some(p.receipt), p.attempt, p.toolCall, Some(ap), now, now, now, now)
  }

  lemma PublishedCallIsCurrent(
    parse: AA.Parse, t: ToolCall, ap: Approval, input: Json, e: Envelope, i: Issue, details: Json, text: Hash -> string)
    requires ApprovedFor(parse, t, ap, input, e) && EvidenceInOrder(t)
    ensures var p := PublicationFor(t, ap, input, e, i, details, text);
            ToolCallCurrent(p.toolCall, p.attempt, p.grant.body, false)
  {
    var p := PublicationFor(t, ap, input, e, i, details, text);
    SameEvidence(t, p.toolCall);
    var d := DecisionIdentityOf(p.toolCall);
    assert d.Some? ==> d.value.decisionInputHash == p.toolCall.identity.canonicalDecisionInputHash;
  }

  lemma PublishedReceiptIsCurrent(
    parse: AA.Parse, t: ToolCall, ap: Approval, input: Json, e: Envelope, i: Issue, details: Json, text: Hash -> string, now: int)
    requires ApprovedFor(parse, t, ap, input, e)
    ensures var p := PublicationFor(t, ap, input, e, i, details, text);
            ReceiptCurrent(parse, Some(p.receipt), p.toolCall, p.attempt, p.grant.body, now)
  {
  }

  lemma PublishedApprovalIsCurrent(
    parse: AA.Parse, t: ToolCall, ap: Approval, input: Json, e: Envelope, i: Issue, details: Json, text: Hash -> string, now: int)
    requires ApprovedFor(parse, t, ap, input, e) && !AA.Expired(parse, ap.authorization.value, now)
    ensures var p := PublicationFor(t, ap, input, e, i, details, text);
            ApprovalCurrent(parse, Some(ap), p.toolCall, p.attempt, p.grant.body, now)
  {
    var p := PublicationFor(t, ap, input, e, i, details, text);
    SameEvidence(t, OriginalCall(p.toolCall, ap));
    assert AA.Matches(parse, ap.authorization.value, ap, OriginalCall(p.toolCall, ap));
  }

  /**
    An approved call can be dispatched with the approved input: its publication is created, and
    as long as nothing that was read has changed, the approval and the grant have not expired
    and the policy is still the active one, the consumption passes every check and its
    execution authorization can be bound.
   */
  lemma ApprovedCallDispatches(
    parse: AA.Parse, t: ToolCall, ap: Approval, input: Json, e: Envelope, i: Issue, details: Json,
    text: Hash -> string, now: int)
    requires ApprovedFor(parse, t, ap, input, e) && EvidenceInOrder(t)
    requires i.grantId != "" && i.receiptId != ""
    requires !AA.Expired(parse, ap.authorization.value, now)
    requires parse(i.grantExpiresAt).Some? && parse(i.grantExpiresAt).value > now
    ensures var p := PublicationFor(t, ap, input, e, i, details, text);
            var r := UnchangedReads(p, ap, t.identity.policyVersionHash, now);
            && Publish(p, text, Stored(ap, t, None, None, None)).1 == Created
            && ChecksPass(parse, ConsumeInput(input, t.identity.policyVersionHash, t.Id(), t.ToolName()), r)
            && Bindable(parse, r.approval, r.attempt, r.toolCall, now)
  {
    var p := PublicationFor(t, ap, input, e, i, details, text);
    var r := UnchangedReads(p, ap, t.identity.policyVersionHash, now);
    var c := ConsumeInput(input, t.identity.policyVersionHash, t.Id(), t.ToolName());
    ApprovedCallIsPublished(parse, t, ap, input, e, i, details, text);
    PublishedCallIsCurrent(parse, t, ap, input, e, i, details, text);
    PublishedReceiptIsCurrent(parse, t, ap, input, e, i, details, text, now);
    PublishedApprovalIsCurrent(parse, t, ap, input, e, i, details, text, now);
    assert ChecksPass(parse, c, r);
    BindingAddsFewConditions(parse, c, r);
  }
}
