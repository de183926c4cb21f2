/**
  The authorization that binds a human approval to the call it was asked for: built when the
  approval is requested, checked again at every later use.

  `Date.parse` is the parameter `Parse`.
 */
module ApprovalAuthorization {
  import opened Basics
  import opened Records

  const APPROVAL_AUTHORIZATION_VERSION := "actionproxy.approval-authorization.v1"

  type Parse = Timestamp -> Option<int>

  /** The decision a trace identifies, with the members an approval binds. */
  datatype DecisionIdentity = DecisionIdentity(
    decisionId: Hash, decisionInputHash: Hash, evaluatorVersion: Option<string>, policyDigest: Option<Hash>,
    policyVersion: Option<string>, providerId: string, providerVersion: Option<string>, version: string)

  function DecisionIdentityOf(t: ToolCall): Option<DecisionIdentity> {
    var candidate :- t.identity.decisionV1;
    if candidate.version != Some(DECISION_V1) || !TruthyHash(candidate.decisionId)
      || !TruthyHash(candidate.decisionInputHash) || candidate.policy.None?
      || candidate.policy.value.provider.None? || !Truthy(candidate.policy.value.provider.value.id)
    then None
    else
      var policy := candidate.policy.value;
      Some(DecisionIdentity(
        candidate.decisionId.value, candidate.decisionInputHash.value, candidate.evaluatorVersion, policy.digest,
        policy.version, policy.provider.value.id.value, policy.provider.value.version, DECISION_V1))
  }

  function AsSet(s: seq<string>): set<string> { set x | x in s }

  function AtLeastOne(n: Option<int>): int {
    if n.None? || n.value < 1 then 1 else n.value
  }

  function RequirementsOf(a: Approval): Requirements {
    Requirements(AsSet(a.approverGroups.GetOr([])),
                 if a.approverUsers.None? then None else Some(AsSet(a.approverUsers.value)),
                 AtLeastOne(a.requiredApprovals),
                 a.separationOfDuties.GetOr(false))
  }

  /** The binding of an approval `a`, being requested, to the call `t`. */
  function BindingFor(a: Approval, t: ToolCall, inputHash: Hash, envelopeHash: Hash, reviewHash: Hash,
      policy: Hash): AuthorizationBinding {
    var d := DecisionIdentityOf(t);
    AuthorizationBinding(
      envelopeHash, inputHash, reviewHash, a.id, a.requestedBy, a.requestedByPrincipalId, t.WorkspaceId(), t.Id(),
      if d.Some? then Some(d.value.decisionId) else None,
      t.identity.decision.GetOr(RequireApproval),
      if d.Some? then Some(d.value.version) else None,
      if d.Some? then d.value.policyDigest else None,
      if d.Some? then d.value.evaluatorVersion else None,
      policy,
      t.identity.policyVersionId,
      if d.Some? then Some(d.value.providerId) else None,
      if d.Some? then d.value.providerVersion else None,
      if d.Some? then d.value.policyVersion else None,
      Coalesce(t.identity.canonicalDecisionInputHash, if d.Some? then Some(d.value.decisionInputHash) else None),
      t.identity.canonicalActionRequestHash,
      t.identity.canonicalActionRequestVersion,
      RequirementsOf(a))
  }

  /** `None` where `buildApprovalAuthorization` throws. */
  function Build(parse: Parse, a: Approval, t: ToolCall, inputHash: Hash, envelopeHash: Hash, reviewHash: Hash,
                 issuedAt: Timestamp, expiresAt: Timestamp, nonce: string): Option<Authorization>
  {
    if !TruthyHash(t.identity.policyVersionHash) then None
    else if parse(issuedAt).None? || parse(expiresAt).None? || parse(expiresAt).value <= parse(issuedAt).value then None
    else
      var body := AuthorizationBody(
        BindingFor(a, t, inputHash, envelopeHash, reviewHash, t.identity.policyVersionHash.value),
        expiresAt, issuedAt, nonce, APPROVAL_AUTHORIZATION_VERSION);
      Some(Authorization(body, ApprovalHash(body)))
  }

  predicate IsValid(parse: Parse, auth: Authorization) {
    var body, b := auth.body, auth.body.binding;
    && body.version == APPROVAL_AUTHORIZATION_VERSION
    && auth.authorizationHash != Literal("") && body.nonce != "" && body.issuedAt != "" && body.expiresAt != ""
    && parse(body.issuedAt).Some? && parse(body.expiresAt).Some?
    && b.originalEnvelopeHash != Literal("") && b.originalInputHash != Literal("") && b.reviewHash != Literal("")
    && b.approvalId != "" && b.requestedBy != "" && b.tenantId != "" && b.toolCallId != ""
    && b.legacyVersionHash != Literal("")
    && b.requirements.requiredApprovals >= 1
    && auth.authorizationHash == ApprovalHash(body)
  }

  /** `approvalAuthorizationMismatch` finds nothing: the binding is that of this approval and this call. */
  predicate Matches(parse: Parse, auth: Authorization, a: Approval, t: ToolCall) {
    var b, d := auth.body.binding, DecisionIdentityOf(t);
    && IsValid(parse, auth)
    && b.approvalId == a.id
    && b.toolCallId == a.toolCallId && b.toolCallId == t.Id()
    && b.tenantId == Workspace(a.workspaceId)
    && b.tenantId == t.WorkspaceId()
    && b.requestedBy == a.requestedBy
    && b.requestedBy == t.identity.requestedBy
    && b.requestedByPrincipalId == a.requestedByPrincipalId
    && Some(b.originalInputHash) == a.originalInputHash
    && Some(b.originalInputHash) == t.action.inputHash
    && Some(b.originalEnvelopeHash) == a.originalEnvelopeHash
    && Some(b.originalEnvelopeHash) == t.action.envelopeHash
    && Some(b.reviewHash) == a.reviewHash
    && b.requestHash == t.identity.canonicalActionRequestHash
    && b.requestVersion == t.identity.canonicalActionRequestVersion
    && b.decisionInputHash
       == Coalesce(t.identity.canonicalDecisionInputHash, if d.Some? then Some(d.value.decisionInputHash) else None)
    && b.decisionVersion == (if d.Some? then Some(d.value.version) else None)
    && b.decisionId == (if d.Some? then Some(d.value.decisionId) else None)
    && Some(b.outcome) == t.identity.decision
    && Some(b.legacyVersionHash) == t.identity.policyVersionHash
    && b.legacyVersionId == t.identity.policyVersionId
    && b.policyDigest == (if d.Some? then d.value.policyDigest else None)
    && b.policyVersion == (if d.Some? then d.value.policyVersion else None)
    && b.providerId == (if d.Some? then Some(d.value.providerId) else None)
    && b.providerVersion == (if d.Some? then d.value.providerVersion else None)
    && b.evaluatorVersion == (if d.Some? then d.value.evaluatorVersion else None)
    && b.requirements.eligibleGroups == AsSet(a.approverGroups.GetOr([]))
    && b.requirements.eligibleUsers == (if a.approverUsers.None? then None else Some(AsSet(a.approverUsers.value)))
    && b.requirements.requiredApprovals == AtLeastOne(a.requiredApprovals)
    && b.requirements.separationOfDuties == a.separationOfDuties.GetOr(false)
    && t.status == PendingApproval
  }

  predicate Expired(parse: Parse, auth: Authorization, now: int) {
    match parse(auth.body.expiresAt)
    case Some(at) => at <= now
    case None => false
  }

  /** What the caller of `Build` must have put into the approval and the call for it to be usable. */
  predicate Coherent(a: Approval, t: ToolCall, inputHash: Hash, envelopeHash: Hash, reviewHash: Hash) {
    && a.id != "" && a.requestedBy != "" && t.Id() != "" && t.WorkspaceId() != ""
    && inputHash != Literal("") && envelopeHash != Literal("") && reviewHash != Literal("")
    && a.toolCallId == t.Id() && Workspace(a.workspaceId) == t.WorkspaceId()
    && a.requestedBy == t.identity.requestedBy
    && a.originalInputHash == t.action.inputHash == Some(inputHash)
    && a.originalEnvelopeHash == t.action.envelopeHash == Some(envelopeHash)
    && a.reviewHash == Some(reviewHash)
    && t.identity.decision.Some? && t.status == PendingApproval
  }

  /** An authorization that was built matches the approval and the call it was built for, exactly when these cohere. */
  lemma BuiltAuthorizationMatches(
    parse: Parse, a: Approval, t: ToolCall, inputHash: Hash, envelopeHash: Hash, reviewHash: Hash,
    issuedAt: Timestamp, expiresAt: Timestamp, nonce: string)
    requires Build(parse, a, t, inputHash, envelopeHash, reviewHash, issuedAt, expiresAt, nonce).Some?
    requires nonce != "" && issuedAt != "" && expiresAt != ""
    ensures var auth := Build(parse, a, t, inputHash, envelopeHash, reviewHash, issuedAt, expiresAt, nonce).value;
            Matches(parse, auth, a, t) <==> Coherent(a, t, inputHash, envelopeHash, reviewHash)
  {
  }

  /** The hash of a valid authorization determines it. */
  lemma AuthorizationHashBinds(parse: Parse, x: Authorization, y: Authorization)
    requires IsValid(parse, x) && IsValid(parse, y)
    ensures x.authorizationHash == y.authorizationHash <==> x == y
  {
  }

  /** One authorization cannot match two different calls: they agree on everything it binds. */
  lemma OneAuthorizationOneCall(parse: Parse, auth: Authorization, a: Approval, t: ToolCall, b: Approval, u: ToolCall)
    requires Matches(parse, auth, a, t) && Matches(parse, auth, b, u)
    ensures t.Id() == u.Id() && t.WorkspaceId() == u.WorkspaceId() && a.id == b.id
    ensures t.action.inputHash == u.action.inputHash && t.action.envelopeHash == u.action.envelopeHash
    ensures t.identity.decision == u.identity.decision
    ensures t.identity.policyVersionHash == u.identity.policyVersionHash
    ensures t.identity.canonicalActionRequestHash == u.identity.canonicalActionRequestHash
    ensures DecisionIdentityOf(t).None? <==> DecisionIdentityOf(u).None?
    ensures RequirementsOf(a) == RequirementsOf(b) && a.reviewHash == b.reviewHash
  {
  }
}
