/**
  Recording the known outcome of a prepared action in one store transaction, and adopting a
  known outcome whose projection was only partly written.
 */
module OutcomeAtomicity {
  import opened Basics
  import opened Records
  import OR = OutcomeReports

  datatype Recording = Recording(
    attemptId: string, attemptOutcome: AttemptOutcome, receiptOutcome: ReceiptOutcome, reservationOwner: string,
    toolCall: ToolCall, workspaceId: string)

  datatype Adoption = Adoption(attemptId: string, receipt: Receipt, toolCall: ToolCall, workspaceId: string)

  /** `externalExecutionOutcome(result)`. */
  function ExternalExecutionOutcome(result: Option<Json>): Option<Json> {
    if result.Some? && result.value.Object? && "externalExecutionOutcome" in result.value.members
    then Some(result.value.members["externalExecutionOutcome"]) else None
  }

  /** `hashJson(a) === hashJson(b)`; hashing an absent value throws, which changes nothing either. */
  predicate SameHash(a: Option<Json>, b: Option<Json>) { a.Some? && b.Some? && a == b }

  // ------------------------------------------------------------ recording

  /** The assertion on a recording: no mismatch is listed. */
  predicate RecordingCandidate(r: Recording) {
    var succeeded, failed := r.attemptOutcome.status == Succeeded, r.attemptOutcome.status == FailedAfterDispatch;
    && r.attemptId != "" && r.reservationOwner != ""
    && r.attemptOutcome.known
    && (succeeded || failed)
    && r.attemptOutcome.retryDisposition == NoRetry
    && r.receiptOutcome.succeeded == succeeded
    && r.receiptOutcome.recordedAt == r.attemptOutcome.recordedAt
    && r.toolCall.status == (if succeeded then Executed else FailedCall)
    && r.toolCall.updatedAt == r.attemptOutcome.recordedAt
    && r.toolCall.WorkspaceId() == r.workspaceId
    && r.toolCall.action.inputHash == Some(JsonHash(r.toolCall.action.input))
    && (match r.toolCall.PreparedAction()
        case Some(p) => p.intentId != "" && p.intentHash != ""
        case None => false)
    && r.attemptOutcome.resultDeliveryHash == HashDelivery(r.receiptOutcome.resultDelivery)
    && r.attemptOutcome.remediationHash == HashOptional(r.receiptOutcome.remediation)
    && r.attemptOutcome.resultHash == HashOptional(r.receiptOutcome.result)
    && r.attemptOutcome.errorMessage == r.receiptOutcome.error
    && (succeeded ==> r.receiptOutcome.error == None)
    && (failed ==> r.receiptOutcome.result == None && r.receiptOutcome.remediation == None)
    && r.toolCall.error == (if succeeded then None else r.receiptOutcome.error)
    && r.toolCall.resultDelivery == r.receiptOutcome.resultDelivery
    && (succeeded ==> SameHash(ExternalExecutionOutcome(r.toolCall.result), r.receiptOutcome.result))
  }

  /** The call minus what an outcome may change. */
  predicate SameImmutableSemantics(a: ToolCall, b: ToolCall) {
    a.identity == b.identity && a.action == b.action
  }

  predicate RecordingBindingsMatch(r: Recording, c: Current) {
    var a, g, receipt, t := c.attempt, c.grant.body, c.receipt.body, c.toolCall;
    && a.identity.id == r.attemptId
    && a.identity.workspaceId == r.workspaceId
    && a.identity.toolCallId == r.toolCall.Id()
    && a.identity.reservationOwner == r.reservationOwner
    && a.identity.mode == ExternalGrant && a.identity.externalRunner
    && a.identity.idempotencyNone && a.identity.neverAutomatic
    && a.grantId == Some(g.id)
    && g.workspaceId == r.workspaceId
    && g.toolCallId == r.toolCall.Id()
    && g.toolName == r.toolCall.ToolName()
    && c.grant.consumedAt.Some?
    && g.inputHash == a.identity.inputHash
    && g.approvedInputHash == Some(receipt.approvedInputHash)
    && g.approvedEnvelopeHash == Some(receipt.approvedEnvelopeHash)
    && g.receiptId == Some(receipt.id)
    && g.receiptHash == Some(c.receipt.receiptHash)
    && a.binding.receiptId == Some(receipt.id)
    && a.binding.receiptHash == Some(c.receipt.receiptHash)
    && a.binding.actionEnvelopeHash == g.approvedEnvelopeHash
    && receipt.workspaceId == r.workspaceId
    && receipt.toolCallId == r.toolCall.Id()
    && receipt.toolName == r.toolCall.ToolName()
    && receipt.mode == ExternalGrant
    && receipt.approvedInputHash == a.identity.inputHash
    && Some(receipt.approvedEnvelopeHash) == a.binding.actionEnvelopeHash
    && t.WorkspaceId() == r.workspaceId
    && t.Id() == r.toolCall.Id()
    && t.ToolName() == r.toolCall.ToolName()
    && t.action.inputHash == Some(a.identity.inputHash)
    && t.action.envelopeHash == a.binding.actionEnvelopeHash
    && t.PreparedAction().Some?
    && r.toolCall.PreparedAction() == t.PreparedAction()
    && SameImmutableSemantics(t, r.toolCall)
  }

  predicate RecordingMatchesCurrent(r: Recording, c: Current) {
    RecordingBindingsMatch(r, c) && c.toolCall.status == Authorized && c.receipt.outcome == None
  }

  /** A withheld result may have been released since; nothing else may differ. */
  predicate WithheldCompatible(candidate: Option<bool>, stored: Option<bool>) {
    stored == candidate || (candidate == Some(true) && stored == Some(false))
  }

  predicate SameTerminalProjection(candidate: ToolCall, stored: ToolCall) {
    && stored.status == candidate.status
    && stored.error == candidate.error
    && OrNull(stored.result) == OrNull(candidate.result)
    && stored.resultDelivery == candidate.resultDelivery
    && WithheldCompatible(candidate.resultWithheld, stored.resultWithheld)
  }

  predicate SameRecorded(r: Recording, c: Current) {
    && c.attempt.state == r.attemptOutcome.status
    && c.attempt.outcome == Some(r.attemptOutcome)
    && c.receipt.outcome == Some(r.receiptOutcome)
    && SameTerminalProjection(r.toolCall, c.toolCall)
  }

  datatype Verdict = Rejected | NotFound | OwnerMismatch | BindingMismatch | Replay | Recorded | Adopted
    | Conflict | ReconciliationRequired | StateMismatch

  function ConflictDisposition(s: AttemptState): Verdict {
    match s
    case Dispatched | TimedOut | UnknownOutcome => ReconciliationRequired
    case Reserved | CancelledRun | FailedBeforeDispatch => StateMismatch
    case Succeeded | FailedAfterDispatch => Conflict
  }

  function CompletedAttempt(a: Attempt, o: AttemptOutcome): Attempt {
    a.(completedAt := Some(o.recordedAt), outcome := Some(o), state := o.status, updatedAt := o.recordedAt)
  }

  function RecordedState(r: Recording, c: Current): Current {
    Current(CompletedAttempt(c.attempt, r.attemptOutcome), c.grant,
            c.receipt.(outcome := Some(r.receiptOutcome)), r.toolCall)
  }

  /** The store transaction, on the records its lookups return. */
  function RecordAtomically(r: Recording, c: Current): (Current, Verdict) {
    if !RecordingCandidate(r) then (c, Verdict.Rejected)
    else if c.attempt.identity.id != r.attemptId || c.attempt.identity.workspaceId != r.workspaceId then (c, NotFound)
    else if c.attempt.identity.reservationOwner != r.reservationOwner then (c, OwnerMismatch)
    else if !RecordingBindingsMatch(r, c) then (c, BindingMismatch)
    else if SameRecorded(r, c) then (c, Replay)
    else if !RecordingMatchesCurrent(r, c) then (c, ConflictDisposition(c.attempt.state))
    else if c.attempt.state != Dispatched then (c, ConflictDisposition(c.attempt.state))
    else (RecordedState(r, c), Recorded)
  }

  // ------------------------------------------------------------ adoption

  predicate AdoptionCandidate(i: Adoption) {
    && i.attemptId != ""
    && i.receipt.outcome.Some?
    && i.receipt.body.workspaceId == i.workspaceId
    && i.receipt.body.toolCallId == i.toolCall.Id()
    && i.toolCall.WorkspaceId() == i.workspaceId
    && (i.toolCall.status == Executed || i.toolCall.status == FailedCall)
  }

  datatype AdoptionState = Adoptable | NeedsReconciliation | WrongState

  function AdoptionStateOf(a: Attempt): AdoptionState {
    match a.state
    case Dispatched | TimedOut | UnknownOutcome => NeedsReconciliation
    case Reserved => WrongState
    case _ =>
      if a.outcome.Some? && a.outcome.value.known && a.outcome.value.status == a.state then Adoptable else WrongState
  }

  /** What the stored attempt says the candidate's outcome must be. */
  predicate OutcomeAgrees(i: Adoption, c: Current)
    requires i.receipt.outcome.Some? && c.attempt.outcome.Some?
  {
    var candidate, outcome, succeeded := i.receipt.outcome.value, c.attempt.outcome.value, c.attempt.state == Succeeded;
    && candidate.recordedAt == outcome.recordedAt
    && candidate.succeeded == succeeded
    && outcome.resultDeliveryHash == HashDelivery(candidate.resultDelivery)
    && outcome.remediationHash == HashOptional(if succeeded then candidate.remediation else None)
    && (succeeded ==> outcome.resultHash == HashOptional(candidate.result))
    && (!succeeded ==> candidate.error == outcome.errorMessage)
    && i.toolCall.status == (if succeeded then Executed else FailedCall)
    && i.toolCall.error == (if succeeded then c.toolCall.error else candidate.error)
    && i.toolCall.resultDelivery == candidate.resultDelivery
    && (if succeeded then SameHash(ExternalExecutionOutcome(i.toolCall.result), candidate.result)
        else OrNull(i.toolCall.result) == OrNull(c.toolCall.result))
  }

  predicate AdoptionMatchesCurrent(i: Adoption, c: Current)
    requires i.receipt.outcome.Some?
  {
    var a, g, receipt, t := c.attempt, c.grant.body, c.receipt.body, c.toolCall;
    && a.outcome.Some? && AdoptionStateOf(a) == Adoptable
    && a.identity.id == i.attemptId
    && a.identity.workspaceId == i.workspaceId
    && a.identity.toolCallId == i.toolCall.Id()
    && a.identity.mode == ExternalGrant && a.identity.externalRunner
    && a.grantId == Some(g.id)
    && g.workspaceId == i.workspaceId
    && g.toolCallId == i.toolCall.Id()
    && c.grant.consumedAt.Some?
    && g.inputHash == a.identity.inputHash
    && g.receiptId == Some(receipt.id)
    && g.receiptHash == Some(c.receipt.receiptHash)
    && a.binding.receiptId == Some(receipt.id)
    && a.binding.receiptHash == Some(c.receipt.receiptHash)
    && a.binding.actionEnvelopeHash == g.approvedEnvelopeHash
    && receipt.id == i.receipt.body.id
    && receipt.toolCallId == i.toolCall.Id()
    && receipt.workspaceId == i.workspaceId
    && receipt == i.receipt.body && c.receipt.receiptHash == i.receipt.receiptHash
    && t.WorkspaceId() == i.workspaceId
    && t.Id() == i.toolCall.Id()
    && t.status == Authorized
    && t.action.inputHash == Some(a.identity.inputHash)
    && t.action.envelopeHash == a.binding.actionEnvelopeHash
    && SameImmutableSemantics(t, i.toolCall)
    && OutcomeAgrees(i, c)
  }

  predicate SameAdopted(i: Adoption, receipt: Receipt, t: ToolCall) {
    receipt.outcome == i.receipt.outcome && SameTerminalProjection(i.toolCall, t)
  }

  predicate CanBeAdopted(i: Adoption, receipt: Receipt, t: ToolCall) {
    && (receipt.outcome == None || receipt.outcome == i.receipt.outcome)
    && (t.status == Authorized || SameAdopted(i, if receipt.outcome.Some? then receipt else i.receipt, t))
  }

  function AdoptAtomically(i: Adoption, c: Current): (Current, Verdict) {
    if !AdoptionCandidate(i) then (c, Verdict.Rejected)
    else if c.attempt.identity.id != i.attemptId then (c, NotFound)
    else
      match AdoptionStateOf(c.attempt)
      case NeedsReconciliation => (c, ReconciliationRequired)
      case WrongState => (c, StateMismatch)
      case Adoptable =>
        if SameAdopted(i, c.receipt, c.toolCall) then (c, Replay)
        else if !AdoptionMatchesCurrent(i, c) then (c, BindingMismatch)
        else if !CanBeAdopted(i, c.receipt, c.toolCall) then (c, Conflict)
        else
          (c.(receipt := if c.receipt.outcome.Some? then c.receipt else i.receipt,
              toolCall := if c.toolCall.status == Authorized then i.toolCall else c.toolCall), Adopted)
  }

  // ------------------------------------------------------------ what recording does

  lemma RecordedIs(r: Recording, c: Current)
    requires RecordAtomically(r, c).1 == Recorded
    ensures RecordAtomically(r, c).0 == RecordedState(r, c)
  {
  }

  /**
    An accepted recording makes the same request a replay and leaves the attempt adoptable with
    its projection complete; what follows from that for every later request is `SettledForGood`.
   */
  lemma AcceptedRecordingIsFinal(r: Recording, c: Current)
    requires RecordAtomically(r, c).1 == Recorded
    ensures var done := RecordAtomically(r, c).0;
            && done.toolCall == r.toolCall && done.receipt.outcome == Some(r.receiptOutcome)
            && done.attempt.outcome == Some(r.attemptOutcome)
            && RecordAtomically(r, done) == (done, Replay)
            && AdoptionStateOf(done.attempt) == Adoptable
            && Settled(done)
  {
  }

  /** The attempt is adoptable and its projection is complete. */
  predicate Settled(c: Current) {
    && AdoptionStateOf(c.attempt) == Adoptable
    && c.receipt.outcome.Some?
    && c.toolCall.status != Authorized
  }

  datatype Request = Record(recording: Recording) | Adopt(adoption: Adoption) | Release(at: Timestamp)

  /** Every store call an outcome report may still make; `Release` is the write that ends withholding. */
  function Serve(q: Request, c: Current): (Current, Verdict) {
    match q
    case Record(r) => RecordAtomically(r, c)
    case Adopt(i) => AdoptAtomically(i, c)
    case Release(at) => (c.(toolCall := c.toolCall.(resultWithheld := Some(false), updatedAt := at)), Recorded)
  }

  function ServeAll(qs: seq<Request>, c: Current): Current {
    if qs == [] then c else Serve(qs[|qs| - 1], ServeAll(qs[..|qs| - 1], c)).0
  }

  /**
    Once settled, whatever requests follow in whatever order: attempt, receipt and the call's
    outcome stay as they are, and a result that is released is never withheld again.
   */
  lemma {:induction false} SettledForGood(qs: seq<Request>, c: Current)
    requires Settled(c)
    ensures var after := ServeAll(qs, c);
            && Settled(after)
            && after.attempt == c.attempt && after.receipt == c.receipt && after.grant == c.grant
            && after.toolCall == c.toolCall.(resultWithheld := after.toolCall.resultWithheld,
                                             updatedAt := after.toolCall.updatedAt)
            && (after.toolCall.resultWithheld == c.toolCall.resultWithheld
                || after.toolCall.resultWithheld == Some(false))
  {
    if qs != [] {
      SettledForGood(qs[..|qs| - 1], c);
      SettledStep(qs[|qs| - 1], ServeAll(qs[..|qs| - 1], c));
    }
  }

  lemma SettledStep(q: Request, c: Current)
    requires Settled(c)
    ensures q.Release? || Serve(q, c).0 == c
    ensures q.Record? ==> Serve(q, c).1 != Recorded
    ensures q.Adopt? ==> Serve(q, c).1 != Adopted
  {
  }

  /** On the records an accepted recording left, another request for it is judged by its projection alone. */
  lemma SecondRecording(r: Recording, c: Current, s: Recording, stored: ToolCall)
    requires RecordAtomically(r, c).1 == Recorded
    requires s == r.(toolCall := s.toolCall) && RecordingCandidate(s)
    requires SameImmutableSemantics(s.toolCall, r.toolCall) && SameImmutableSemantics(stored, r.toolCall)
    requires stored.status != Authorized
    ensures RecordAtomically(s, RecordAtomically(r, c).0.(toolCall := stored)).1
         == if SameTerminalProjection(s.toolCall, stored) then Replay else Conflict
  {
    assert RecordingBindingsMatch(s, RecordAtomically(r, c).0.(toolCall := stored));
  }

  /**
    After a recording the same request stays a replay when the result has been released; a
    request that would withhold the result differently is a conflict, never a second write.
   */
  lemma ReleaseKeepsReplay(r: Recording, c: Current, at: Timestamp, withheld: Option<bool>)
    requires RecordAtomically(r, c).1 == Recorded
    ensures var done := RecordAtomically(r, c).0;
            var other := r.(toolCall := r.toolCall.(resultWithheld := withheld));
            && RecordAtomically(r, Serve(Release(at), done).0).1
               == (if r.toolCall.resultWithheld.Some? then Replay else Conflict)
            && RecordAtomically(other, done).1
               == if WithheldCompatible(withheld, r.toolCall.resultWithheld) then Replay else Conflict
  {
    var done := RecordAtomically(r, c).0;
    assert done == RecordedState(r, c);
    var released := Serve(Release(at), done).0;
    assert released.toolCall == r.toolCall.(resultWithheld := Some(false), updatedAt := at);
    SecondRecording(r, c, r, released.toolCall);
    assert r == r.(toolCall := r.toolCall) && released == done.(toolCall := released.toolCall);
    if r.toolCall.resultWithheld.Some? {
      var withheldAtFirst: bool := r.toolCall.resultWithheld.value;
      assert r.toolCall.resultWithheld == if withheldAtFirst then Some(true) else Some(false);
    }
    var other := r.(toolCall := r.toolCall.(resultWithheld := withheld));
    SecondRecording(r, c, other, r.toolCall);
    assert done == done.(toolCall := r.toolCall);
    assert SameTerminalProjection(other.toolCall, r.toolCall) <==> WithheldCompatible(withheld, r.toolCall.resultWithheld);
  }

  // ------------------------------------------------------------ what adoption decides

  /** The last test of an adoption never decides anything: a matching call is still authorized. */
  lemma OnlyAuthorizedCallsAreAdopted(i: Adoption, c: Current)
    requires AdoptAtomically(i, c).1 == Adopted
    ensures AdoptAtomically(i, c).0.toolCall == i.toolCall
    ensures AdoptAtomically(i, c).0.receipt.outcome == i.receipt.outcome
    ensures AdoptAtomically(i, c).0.receipt.body == c.receipt.body
    ensures AdoptAtomically(i, c).0.attempt == c.attempt
    ensures Settled(AdoptAtomically(i, c).0)
    ensures AdoptAtomically(i, AdoptAtomically(i, c).0) == (AdoptAtomically(i, c).0, Replay)
  {
  }

  /**
    Any two candidates that could be adopted against one stored attempt say the same: status,
    time, delivery, and on success the result and the remediation, on failure the error.
   */
  lemma AdoptableCandidatesAgree(i: Adoption, j: Adoption, c: Current)
    requires AdoptAtomically(i, c).1 == Adopted && AdoptAtomically(j, c).1 == Adopted
    ensures var a, b := i.receipt.outcome.value, j.receipt.outcome.value;
            && a.succeeded == b.succeeded == (c.attempt.state == Succeeded)
            && a.recordedAt == b.recordedAt
            && a.resultDelivery == b.resultDelivery
            && (a.succeeded ==> a.result == b.result && a.remediation == b.remediation)
            && (!a.succeeded ==> a.error == b.error)
            && i.toolCall.status == j.toolCall.status
            && i.toolCall.error == j.toolCall.error
            && i.toolCall.resultDelivery == j.toolCall.resultDelivery
            && ExternalExecutionOutcome(i.toolCall.result) == ExternalExecutionOutcome(j.toolCall.result)
            && SameImmutableSemantics(i.toolCall, j.toolCall)
            && i.receipt.body == j.receipt.body
  {
    assert OutcomeAgrees(i, c) && OutcomeAgrees(j, c);
  }

  /** The adoption that carries the same outcome as a recording. */
  function AdoptionOf(r: Recording, c: Current): Adoption {
    Adoption(r.attemptId, c.receipt.(outcome := Some(r.receiptOutcome)), r.toolCall, r.workspaceId)
  }

  /**
    If only the attempt was completed and the rest was lost, adopting the same outcome reaches
    the state the recording would have reached. It is accepted if and only if the call's stored
    error (on success) or result (on failure) is the one the report carries.
   */
  lemma AdoptionCompletesRecording(r: Recording, c: Current)
    requires RecordAtomically(r, c).1 == Recorded
    ensures var partial := c.(attempt := CompletedAttempt(c.attempt, r.attemptOutcome));
            var (after, verdict) := AdoptAtomically(AdoptionOf(r, c), partial);
            && (verdict == Adopted <==>
                  if r.receiptOutcome.succeeded then c.toolCall.error == None
                  else OrNull(r.toolCall.result) == OrNull(c.toolCall.result))
            && (verdict == Adopted ==> after == RecordAtomically(r, c).0)
  {
    var partial := c.(attempt := CompletedAttempt(c.attempt, r.attemptOutcome));
    var i := AdoptionOf(r, c);
    assert AdoptionCandidate(i);
    assert AdoptionStateOf(partial.attempt) == Adoptable;
    assert !SameAdopted(i, partial.receipt, partial.toolCall);
  }

  /** The terminal call that an outcome report builds from the call as it is stored. */
  function TerminalCall(stored: ToolCall, o: ReceiptOutcome, withheld: bool): ToolCall {
    stored.(status := if o.succeeded then Executed else FailedCall,
            error := o.error,
            result := if o.succeeded then Some(OR.WithExecutionOutcome(stored.result, OrNull(o.result))) else stored.result,
            resultDelivery := o.resultDelivery,
            resultWithheld := Some(withheld),
            updatedAt := o.recordedAt)
  }

  /**
    For the call that a report builds itself, the adoption after a lost recording completes it
    unless the report is a success and the stored call already has an error.
   */
  lemma ReportedAdoptionCompletes(r: Recording, c: Current, withheld: bool)
    requires RecordAtomically(r, c).1 == Recorded
    requires r.toolCall == TerminalCall(c.toolCall, r.receiptOutcome, withheld)
    ensures var partial := c.(attempt := CompletedAttempt(c.attempt, r.attemptOutcome));
            var (after, verdict) := AdoptAtomically(AdoptionOf(r, c), partial);
            && (verdict == Adopted <==> !r.receiptOutcome.succeeded || c.toolCall.error == None)
            && (verdict == Adopted ==> after == RecordAtomically(r, c).0)
  {
    AdoptionCompletesRecording(r, c);
  }

  /** A dispatched prepared action whose stored call carries an error. */
  function StaleCall(): Current {
    var input := JsonHash(Null);
    var envelope := EnvelopeBody(ExternalGrant, "write", input, "mcp", "mcp", None, Some(Prepared("intent", "hash")), Null);
    var sealed := EnvelopeHash(envelope);
    var identity := CallIdentity("call", None, "write", "user", None, Some(RequireApproval), None, None, None, None, None,
                                 None, None, None, None, None, Null);
    var call := ToolCall(identity, Action(Null, Some(input), Some(Envelope(envelope, sealed)), Some(sealed)), Authorized,
                         Some("stale"), None, None, None, "t0");
    var body := ReceiptBody("receipt", "default", "call", "write", true, ExternalGrant, None, input, sealed, input, sealed,
                            None, Some(RequireApproval), None, None, None, Null);
    var receipt := Receipt(body, ReceiptDigest(body), None);
    var signed := GrantBody("grant", "default", "call", "write", "user", "t9", input, "nonce", Some(sealed), Some(input),
                            None, Some(receipt.receiptHash), Some("receipt"));
    var binding := AttemptBinding(Some(sealed), None, None, None, None, None, None, None, None, None, None, None,
                                  Some(receipt.receiptHash), Some("receipt"), None);
    var attempt := Attempt(AttemptIdentity("attempt", "default", "call", input, ExternalGrant, true, true, true, "owner", 1,
                                           ATTEMPT_VERSION),
                           binding, Some("grant"), Dispatched, Some("t1"), None, None, "t1");
    Current(attempt, Grant(signed, Signature(signed), Some("t1")), receipt, call)
  }

  /** A success recorded on it is accepted, and its adoption after a lost recording is not. */
  lemma StaleErrorStopsAdoption()
    ensures var c := StaleCall();
            var ok: Json := Object(map["ok" := Bool(true)]);
            var o := AttemptOutcome(Succeeded, true, None, None, None, None, "t2", None, Some(JsonHash(ok)), NoRetry);
            var ro := ReceiptOutcome(true, None, "t2", "user", None, Some(ok), None);
            var r := Recording("attempt", o, ro, "owner", TerminalCall(c.toolCall, ro, false), "default");
            && RecordAtomically(r, c).1 == Recorded
            && AdoptAtomically(AdoptionOf(r, c), c.(attempt := CompletedAttempt(c.attempt, o))).1 == BindingMismatch
  {
    var c := StaleCall();
    var ok: Json := Object(map["ok" := Bool(true)]);
    var o := AttemptOutcome(Succeeded, true, None, None, None, None, "t2", None, Some(JsonHash(ok)), NoRetry);
    var ro := ReceiptOutcome(true, None, "t2", "user", None, Some(ok), None);
    var r := Recording("attempt", o, ro, "owner", TerminalCall(c.toolCall, ro, false), "default");
    assert RecordingCandidate(r);
    assert RecordingBindingsMatch(r, c);
    ReportedAdoptionCompletes(r, c, false);
  }
}
