/**
  The memory store's records of authorization and their transactions: each one as a function on
  all the tables, and as the method of the store that updates its tables in place.

  A transaction runs without interruption, as it does in the memory store.
 */
module AuthorizationStore {
  import opened Basics
  import opened Records
  import AA = ApprovalAuthorization
  import CE = ContentExposures
  import CI = ContentInfluence
  import GC = GrantChecks
  import OA = OutcomeAtomicity

  // ------------------------------------------------------------ tables

  /** A JavaScript `Map` by id: it remembers the order in which its ids came. */
  datatype Table<V> = Table(ids: seq<string>, at: map<string, V>) {
    predicate Has(id: string) { id in at }

    function Get(id: string): Option<V> { if id in at then Some(at[id]) else None }

    function Set(id: string, v: V): Table<V> {
      Table(if id in at then ids else ids + [id], at[id := v])
    }

    /** `[...values()].find(p)`. */
    function Find(p: V -> bool): Option<V> { FirstOf(ids, p) }

    function FirstOf(from: seq<string>, p: V -> bool): Option<V> {
      if from == [] then None
      else if from[0] in at && p(at[from[0]]) then Some(at[from[0]])
      else FirstOf(from[1..], p)
    }
  }

  type CallKey = (string, string)

  datatype Tables = Tables(
    toolCalls: Table<ToolCall>,
    approvals: Table<Approval>,
    receipts: Table<Receipt>,
    grants: Table<Grant>,
    attempts: Table<Attempt>,
    attemptOf: map<CallKey, string>,
    scopes: map<CallKey, seq<CE.Exposure>>)

  const EMPTY: Tables := Tables(
    Table([], map[]), Table([], map[]), Table([], map[]), Table([], map[]), Table([], map[]), map[], map[])

  function ScopeHistory(scopes: map<CallKey, seq<CE.Exposure>>, workspaceId: string, scopeId: string): seq<CE.Exposure> {
    if (workspaceId, scopeId) in scopes then scopes[(workspaceId, scopeId)] else []
  }

  /** `contentExposureRevisionMatches`. */
  predicate RevisionMatches(scopes: map<CallKey, seq<CE.Exposure>>, workspaceId: string, guard: Option<CI.RevisionGuard>) {
    guard.Some? ==> |ScopeHistory(scopes, workspaceId, guard.value.scopeId)| == guard.value.revision
  }

  /** The answers of all transactions; `Done` is the one that wrote, `Thrown` an exception. */
  datatype Answer = Done | Thrown | NotFound | GrantNotFound | OwnerMismatch | BindingMismatch | StateMismatch
    | AlreadyBound | AlreadyConsumed | AlreadyTerminal | InfluenceMismatch | Existing | Replay | Conflict
    | ReconciliationRequired

  // ------------------------------------------------------------ reservation

  predicate FreshReservation(record: Attempt) {
    var id := record.identity;
    && id.version == ATTEMPT_VERSION && id.attemptNumber == 1 && record.state == Reserved
    && record.outcome == None && record.dispatchedAt == None && record.completedAt == None && record.grantId == None
    && id.id != "" && id.reservationOwner != "" && id.idempotencyNone && id.neverAutomatic
    && (id.mode == LocalMock ==> !id.externalRunner)
    && (id.mode == ExternalGrant ==> id.externalRunner)
  }

  /** The attempt's binding names the call's request, decision, policy, influence and result source. */
  predicate NamesCall(b: AttemptBinding, t: ToolCall) {
    var d := t.identity.decisionV1;
    && b.canonicalActionRequestHash == t.identity.canonicalActionRequestHash
    && b.canonicalActionRequestVersion == t.identity.canonicalActionRequestVersion
    && b.canonicalDecisionInputHash == t.identity.canonicalDecisionInputHash
    && b.decisionId == (if d.Some? then d.value.decisionId else None)
    && b.decisionVersion == (if d.Some? then d.value.version else None)
    && b.policyVersionHash == t.identity.policyVersionHash
    && b.contentInfluenceBindingHash
       == (if GC.InfluenceHashOf(t).Some? then GC.InfluenceHashOf(t)
           else if t.identity.contentInfluence.Some? then Some(Literal("invalid")) else None)
    && b.influenceScopeId == t.identity.influenceScopeId
    && b.resultSourceHash == Some(SourceHash(t.identity.resultSource))
  }

  /** The approval the attempt names: an empty id stands for the first approved one of the call. */
  function NamedApproval(tables: Tables, record: Attempt): Option<Approval> {
    if Truthy(record.binding.approvalId) then tables.approvals.Get(record.binding.approvalId.value)
    else tables.approvals.Find((a: Approval) => a.toolCallId == record.identity.toolCallId && a.status == Approved)
  }

  predicate ApprovalReservable(
    parse: AA.Parse, now: int, record: Attempt, approval: Option<Approval>, presented: Option<Authorization>)
  {
    var b := record.binding;
    if b.approvalId.None? then b.approvalAuthorizationHash == None && b.approvalAuthorizationNonce == None
    else
      && approval.Some? && presented.Some?
      && var ap := approval.value;
         && ap.status == Approved && ap.authorizationConsumedReason == Some(ForApproved)
         && Truthy(ap.authorizationConsumedAt) && ap.authorization.Some?
         && AA.IsValid(parse, ap.authorization.value) && AA.IsValid(parse, presented.value)
         && !AA.Expired(parse, ap.authorization.value, now) && !AA.Expired(parse, presented.value, now)
         && ap.authorization.value.authorizationHash == presented.value.authorizationHash
         && ap.toolCallId == record.identity.toolCallId
         && Workspace(ap.workspaceId) == record.identity.workspaceId
         && ap.approvedInputHash == Some(record.identity.inputHash)
         && ap.approvedEnvelopeHash == b.actionEnvelopeHash
         && b.approvalAuthorizationHash == Some(ap.authorization.value.authorizationHash)
         && b.approvalAuthorizationNonce == Some(ap.authorization.value.body.nonce)
  }

  predicate ReceiptReservable(tables: Tables, record: Attempt, t: ToolCall) {
    var b := record.binding;
    if b.receiptId.Some? then
      && tables.receipts.Has(b.receiptId.value)
      && var r := tables.receipts.at[b.receiptId.value];
         && r.body.toolCallId == record.identity.toolCallId && r.body.workspaceId == record.identity.workspaceId
         && Some(r.receiptHash) == b.receiptHash
         && Some(r.body.approvedEnvelopeHash) == b.actionEnvelopeHash
         && r.body.approvedInputHash == record.identity.inputHash
         && r.body.approvalId == b.approvalId
    else
      && b.receiptHash == None
      && b.actionEnvelopeHash == t.action.envelopeHash
      && Some(record.identity.inputHash) == t.action.inputHash
  }

  /** `executionAttemptBindingMatches`. */
  predicate Reservable(parse: AA.Parse, now: int, tables: Tables, record: Attempt, t: ToolCall,
      presented: Option<Authorization>) {
    && FreshReservation(record)
    && NamesCall(record.binding, t)
    && ApprovalReservable(parse, now, record, NamedApproval(tables, record), presented)
    && ReceiptReservable(tables, record, t)
  }

  function KeyOf(a: Attempt): CallKey { (a.identity.workspaceId, a.identity.toolCallId) }

  function AddAttempt(tables: Tables, a: Attempt): Tables {
    tables.(attempts := tables.attempts.Set(a.identity.id, a), attemptOf := tables.attemptOf[KeyOf(a) := a.identity.id])
  }

  /** `reserveExecutionAttemptAtomically`. */
  function Reserve(parse: AA.Parse, now: int, tables: Tables, record: Attempt,
      presented: Option<Authorization>): (Tables, Answer) {
    var t := tables.toolCalls.Get(record.identity.toolCallId);
    if t.None? || t.value.WorkspaceId() != record.identity.workspaceId then (tables, NotFound)
    else if !Reservable(parse, now, tables, record, t.value, presented) then (tables, BindingMismatch)
    else if KeyOf(record) in tables.attemptOf && tables.attemptOf[KeyOf(record)] != "" then (tables, Existing)
    else if tables.attempts.Has(record.identity.id) then (tables, BindingMismatch)
    else (AddAttempt(tables, record), Done)
  }

  // ------------------------------------------------------------ the attempt's own transactions

  datatype BindInput = BindInput(attemptId: string, workspaceId: string, owner: string, grantId: string, at: Timestamp)

  /** `bindExecutionAttemptGrantAtomically`. */
  function Bind(tables: Tables, i: BindInput): (Tables, Answer) {
    var a := tables.attempts.Get(i.attemptId);
    if a.None? || a.value.identity.workspaceId != i.workspaceId then (tables, NotFound)
    else if a.value.identity.reservationOwner != i.owner then (tables, OwnerMismatch)
    else if a.value.state != Reserved then (tables, StateMismatch)
    else if Truthy(a.value.grantId) then (tables, AlreadyBound)
    else
      var bound := a.value.(grantId := Some(i.grantId), updatedAt := i.at);
      (tables.(attempts := tables.attempts.Set(bound.identity.id, bound)), Done)
  }

  datatype DispatchInput = DispatchInput(
    attemptId: string, workspaceId: string, owner: string, grantId: string, toolCallId: string, at: Timestamp,
    guard: Option<CI.RevisionGuard>)

  function DispatchedAttempt(a: Attempt, at: Timestamp): Attempt {
    a.(dispatchedAt := Some(at), state := Dispatched, updatedAt := at)
  }

  /** `consumeExecutionGrantAndDispatchAttemptAtomically`. */
  function Dispatch(tables: Tables, i: DispatchInput): (Tables, Answer) {
    var a := tables.attempts.Get(i.attemptId);
    if a.None? || a.value.identity.workspaceId != i.workspaceId then (tables, NotFound)
    else
      var g := tables.grants.Get(i.grantId);
      if g.None? || g.value.body.workspaceId != i.workspaceId then (tables, GrantNotFound)
      else if g.value.consumedAt.Some? then (tables, AlreadyConsumed)
      else if a.value.state != Reserved then (tables, StateMismatch)
      else if a.value.identity.reservationOwner != i.owner || a.value.grantId != Some(i.grantId)
        || a.value.identity.toolCallId != i.toolCallId || g.value.body.toolCallId != i.toolCallId
      then (tables, BindingMismatch)
      else if !RevisionMatches(tables.scopes, i.workspaceId, i.guard) then (tables, InfluenceMismatch)
      else (Swap(tables, DispatchedAttempt(a.value, i.at), g.value.(consumedAt := Some(i.at))), Done)
  }

  /** The writes of a dispatch. */
  function Swap(tables: Tables, a: Attempt, g: Grant): Tables {
    tables.(grants := tables.grants.Set(g.body.id, g), attempts := tables.attempts.Set(a.identity.id, a))
  }

  datatype TransitionInput = TransitionInput(
    attemptId: string, workspaceId: string, owner: string, expected: AttemptState, next: AttemptState,
    outcome: Option<AttemptOutcome>, at: Timestamp, guard: Option<CI.RevisionGuard>)

  predicate TransitionIsReplay(a: Attempt, i: TransitionInput) {
    && a.state == i.next
    && (if a.state == Dispatched then i.outcome == None && a.dispatchedAt == Some(i.at)
        else Terminal(a.state) && a.completedAt == Some(i.at) && a.outcome.Some? && a.outcome == i.outcome)
  }

  predicate TransitionIsValid(i: TransitionInput) {
    var tells := i.outcome.Some? && i.outcome.value.status == i.next;
    if i.expected == Reserved then
      if i.next == Dispatched then i.outcome == None else i.next == FailedBeforeDispatch && tells
    else i.next != Reserved && i.next != Dispatched && i.next != FailedBeforeDispatch && tells
  }

  function TransitionedAttempt(a: Attempt, i: TransitionInput): Attempt {
    if i.next == Dispatched then DispatchedAttempt(a, i.at)
    else a.(completedAt := Some(i.at), outcome := i.outcome, state := i.next, updatedAt := i.at)
  }

  /** `transitionExecutionAttemptAtomically`. */
  function Transition(tables: Tables, i: TransitionInput): (Tables, Answer) {
    var a := tables.attempts.Get(i.attemptId);
    if a.None? || a.value.identity.workspaceId != i.workspaceId then (tables, NotFound)
    else if a.value.identity.reservationOwner != i.owner then (tables, OwnerMismatch)
    else if TransitionIsReplay(a.value, i) then (tables, Replay)
    else if Terminal(a.value.state) then (tables, AlreadyTerminal)
    else if !RevisionMatches(tables.scopes, i.workspaceId, i.guard) then (tables, InfluenceMismatch)
    else if a.value.state != i.expected || !TransitionIsValid(i) then (tables, StateMismatch)
    else
      var updated := TransitionedAttempt(a.value, i);
      (tables.(attempts := tables.attempts.Set(updated.identity.id, updated)), Done)
  }

  // ------------------------------------------------------------ publication, recording, adoption

  /** The stored records of the call that a publication looks up. */
  function StoredFor(tables: Tables, p: GC.Publication, approval: Approval, t: ToolCall): GC.Stored {
    var ws, call := p.toolCall.WorkspaceId(), t.Id();
    var id := if (ws, call) in tables.attemptOf then tables.attemptOf[(ws, call)] else "";
    GC.Stored(
      approval, t,
      if id != "" then tables.attempts.Get(id) else None,
      tables.grants.Find((g: Grant) => g.body.workspaceId == ws && g.body.toolCallId == call),
      tables.receipts.Find((r: Receipt) => r.body.workspaceId == ws && r.body.toolCallId == call))
  }

  function AnswerOf(p: GC.Published): Answer {
    match p
    case Created => Done
    case Replay => Replay
    case Conflict => Conflict
    case StateMismatch => StateMismatch
    case BindingMismatch => BindingMismatch
    case Refused => Thrown
  }

  /** `publishApprovedExternalAuthorizationAtomically`. */
  function Publish(text: Hash -> string, tables: Tables, p: GC.Publication): (Tables, Answer) {
    if !GC.PublicationCandidate(p, text) then (tables, Thrown)
    else
      var approval, t := tables.approvals.Get(p.approvalId), tables.toolCalls.Get(p.toolCall.Id());
      if approval.None? || t.None? || t.value.WorkspaceId() != p.toolCall.WorkspaceId() then (tables, NotFound)
      else
        var (_, answer) := GC.Publish(p, text, StoredFor(tables, p, approval.value, t.value));
        if answer != GC.Created then (tables, AnswerOf(answer))
        else if IdsTaken(tables, p) then (tables, Conflict)
        else (Issue(tables, p), Done)
  }

  predicate IdsTaken(tables: Tables, p: GC.Publication) {
    tables.attempts.Has(p.attempt.identity.id) || tables.grants.Has(p.grant.body.id) || tables.receipts.Has(p.receipt.body.id)
  }

  /** The writes of a publication. */
  function Issue(tables: Tables, p: GC.Publication): Tables {
    AddAttempt(tables, p.attempt).(
      receipts := tables.receipts.Set(p.receipt.body.id, p.receipt),
      grants := tables.grants.Set(p.grant.body.id, p.grant),
      toolCalls := tables.toolCalls.Set(p.toolCall.Id(), p.toolCall))
  }

  function VerdictAnswer(v: OA.Verdict): Answer {
    match v
    case Rejected => Thrown
    case NotFound => NotFound
    case OwnerMismatch => OwnerMismatch
    case BindingMismatch => BindingMismatch
    case Replay => Replay
    case Recorded => Done
    case Adopted => Done
    case Conflict => Conflict
    case ReconciliationRequired => ReconciliationRequired
    case StateMismatch => StateMismatch
  }

  /** `attempt.grantId ? executionGrants.get(attempt.grantId) : undefined`, and so for the receipt. */
  function Referenced<V>(table: Table<V>, id: Option<string>): Option<V> {
    if Truthy(id) then table.Get(id.value) else None
  }

  /** The records that the recording of an outcome looks up. */
  function Recordable(tables: Tables, r: OA.Recording): Option<Current> {
    var a :- tables.attempts.Get(r.attemptId);
    if a.identity.workspaceId != r.workspaceId then None
    else
      var t :- tables.toolCalls.Get(a.identity.toolCallId);
      var receipt :- Referenced(tables.receipts, a.binding.receiptId);
      var g :- Referenced(tables.grants, a.grantId);
      Some(Current(a, g, receipt, t))
  }

  /** The writes of receipt and call. */
  function WriteProjection(tables: Tables, c: Current): Tables {
    tables.(receipts := tables.receipts.Set(c.receipt.body.id, c.receipt),
            toolCalls := tables.toolCalls.Set(c.toolCall.Id(), c.toolCall))
  }

  function WriteAttempt(tables: Tables, a: Attempt): Tables {
    tables.(attempts := tables.attempts.Set(a.identity.id, a))
  }

  /** `recordKnownExternalExecutionOutcomeAtomically`. */
  function RecordOutcome(tables: Tables, r: OA.Recording): (Tables, Answer) {
    if !OA.RecordingCandidate(r) then (tables, Thrown)
    else
      match Recordable(tables, r)
      case None => (tables, NotFound)
      case Some(c) =>
        var (d, verdict) := OA.RecordAtomically(r, c);
        (if verdict == OA.Recorded then WriteProjection(WriteAttempt(tables, d.attempt), d) else tables, VerdictAnswer(verdict))
  }

  /** The records that an adoption looks up. */
  function Adoptable(tables: Tables, i: OA.Adoption): Option<Current> {
    var a :- tables.attempts.Get(i.attemptId);
    var t :- tables.toolCalls.Get(i.toolCall.Id());
    var receipt :- tables.receipts.Get(i.receipt.body.id);
    var g :- Referenced(tables.grants, a.grantId);
    Some(Current(a, g, receipt, t))
  }

  /** `adoptKnownExternalExecutionOutcomeAtomically`. */
  function AdoptOutcome(tables: Tables, i: OA.Adoption): (Tables, Answer) {
    if !OA.AdoptionCandidate(i) then (tables, Thrown)
    else
      match Adoptable(tables, i)
      case None => (tables, NotFound)
      case Some(c) =>
        var (d, verdict) := OA.AdoptAtomically(i, c);
        (if verdict == OA.Adopted then WriteProjection(tables, d) else tables, VerdictAnswer(verdict))
  }

  /** `recordActionReceiptOutcomeAtomically`. */
  function RecordReceiptOutcome(tables: Tables, receiptId: string, o: ReceiptOutcome): (Tables, Answer) {
    var r := tables.receipts.Get(receiptId);
    if r.None? then (tables, NotFound)
    else if r.value.outcome.Some? then (tables, Existing)
    else (tables.(receipts := tables.receipts.Set(r.value.body.id, r.value.(outcome := Some(o)))), Done)
  }

  /** `recordContentExposure`. */
  function RecordExposure(tables: Tables, workspaceId: string, scopeId: string, x: CE.Exposure): Tables {
    var history := ScopeHistory(tables.scopes, workspaceId, scopeId);
    if CE.Verdict(history, x) != CE.Created then tables
    else tables.(scopes := tables.scopes[(workspaceId, scopeId) := history + [x]])
  }

  // ------------------------------------------------------------ the store

  class MemoryStore {
    var toolCalls: Table<ToolCall>
    var approvals: Table<Approval>
    var actionReceipts: Table<Receipt>
    var executionGrants: Table<Grant>
    var executionAttempts: Table<Attempt>
    var executionAttemptByToolCall: map<CallKey, string>
    var contentExposureScopes: map<CallKey, seq<CE.Exposure>>

    constructor ()
      ensures View() == EMPTY
    {
      toolCalls, approvals, actionReceipts := Table([], map[]), Table([], map[]), Table([], map[]);
      executionGrants, executionAttempts := Table([], map[]), Table([], map[]);
      executionAttemptByToolCall, contentExposureScopes := map[], map[];
    }

    ghost function View(): Tables
      reads this
    {
      Tables(toolCalls, approvals, actionReceipts, executionGrants, executionAttempts, executionAttemptByToolCall,
             contentExposureScopes)
    }

    method ReserveExecutionAttemptAtomically(parse: AA.Parse, now: int, record: Attempt, presented: Option<Authorization>)
      returns (answer: Answer)
      modifies this
      ensures (View(), answer) == Reserve(parse, now, old(View()), record, presented)
    {
      var toolCall := toolCalls.Get(record.identity.toolCallId);
      if toolCall.None? || toolCall.value.WorkspaceId() != record.identity.workspaceId {
        return NotFound;
      }
      var tables := Tables(toolCalls, approvals, actionReceipts, executionGrants, executionAttempts,
                           executionAttemptByToolCall, contentExposureScopes);
      if !Reservable(parse, now, tables, record, toolCall.value, presented) {
        return BindingMismatch;
      }
      var key := KeyOf(record);
      if key in executionAttemptByToolCall && executionAttemptByToolCall[key] != "" {
        return Existing;
      }
      if executionAttempts.Has(record.identity.id) {
        return BindingMismatch;
      }
      executionAttempts := executionAttempts.Set(record.identity.id, record);
      executionAttemptByToolCall := executionAttemptByToolCall[key := record.identity.id];
      return Done;
    }

    method BindExecutionAttemptGrantAtomically(i: BindInput) returns (answer: Answer)
      modifies this`executionAttempts
      ensures (View(), answer) == Bind(old(View()), i)
    {
      var current := executionAttempts.Get(i.attemptId);
      if current.None? || current.value.identity.workspaceId != i.workspaceId {
        return NotFound;
      }
      if current.value.identity.reservationOwner != i.owner {
        return OwnerMismatch;
      }
      if current.value.state != Reserved {
        return StateMismatch;
      }
      if Truthy(current.value.grantId) {
        return AlreadyBound;
      }
      var updated := current.value.(grantId := Some(i.grantId), updatedAt := i.at);
      executionAttempts := executionAttempts.Set(updated.identity.id, updated);
      return Done;
    }

    method ConsumeExecutionGrantAndDispatchAttemptAtomically(i: DispatchInput) returns (answer: Answer)
      modifies this`executionAttempts, this`executionGrants
      ensures (View(), answer) == Dispatch(old(View()), i)
    {
      var attempt := executionAttempts.Get(i.attemptId);
      if attempt.None? || attempt.value.identity.workspaceId != i.workspaceId {
        return NotFound;
      }
      var grant := executionGrants.Get(i.grantId);
      if grant.None? || grant.value.body.workspaceId != i.workspaceId {
        return GrantNotFound;
      }
      if grant.value.consumedAt.Some? {
        return AlreadyConsumed;
      }
      if attempt.value.state != Reserved {
        return StateMismatch;
      }
      if attempt.value.identity.reservationOwner != i.owner || attempt.value.grantId != Some(i.grantId)
        || attempt.value.identity.toolCallId != i.toolCallId || grant.value.body.toolCallId != i.toolCallId {
        return BindingMismatch;
      }
      if !RevisionMatches(contentExposureScopes, i.workspaceId, i.guard) {
        return InfluenceMismatch;
      }
      var consumedGrant := grant.value.(consumedAt := Some(i.at));
      var dispatchedAttempt := attempt.value.(dispatchedAt := Some(i.at), state := Dispatched, updatedAt := i.at);
      executionGrants := executionGrants.Set(consumedGrant.body.id, consumedGrant);
      executionAttempts := executionAttempts.Set(dispatchedAttempt.identity.id, dispatchedAttempt);
      return Done;
    }

    method TransitionExecutionAttemptAtomically(i: TransitionInput) returns (answer: Answer)
      modifies this`executionAttempts
      ensures (View(), answer) == Transition(old(View()), i)
    {
      var current := executionAttempts.Get(i.attemptId);
      if current.None? || current.value.identity.workspaceId != i.workspaceId {
        return NotFound;
      }
      if current.value.identity.reservationOwner != i.owner {
        return OwnerMismatch;
      }
      if TransitionIsReplay(current.value, i) {
        return Replay;
      }
      if Terminal(current.value.state) {
        return AlreadyTerminal;
      }
      if !RevisionMatches(contentExposureScopes, i.workspaceId, i.guard) {
        return InfluenceMismatch;
      }
      if current.value.state != i.expected || !TransitionIsValid(i) {
        return StateMismatch;
      }
      var updated := TransitionedAttempt(current.value, i);
      executionAttempts := executionAttempts.Set(updated.identity.id, updated);
      return Done;
    }

    method PublishApprovedExternalAuthorizationAtomically(text: Hash -> string, p: GC.Publication) returns (answer: Answer)
      modifies this
      ensures (View(), answer) == Publish(text, old(View()), p)
    {
      if !GC.PublicationCandidate(p, text) {
        return Thrown;
      }
      var approval := approvals.Get(p.approvalId);
      var toolCall := toolCalls.Get(p.toolCall.Id());
      if approval.None? || toolCall.None? || toolCall.value.WorkspaceId() != p.toolCall.WorkspaceId() {
        return NotFound;
      }
      var tables := Tables(toolCalls, approvals, actionReceipts, executionGrants, executionAttempts,
                           executionAttemptByToolCall, contentExposureScopes);
      answer := JudgePublication(text, p, StoredFor(tables, p, approval.value, toolCall.value));
      if answer == Done {
        answer := WritePublication(p);
      }
    }

    /** The last test of a publication, for ids that are taken, and its writes. */
    method WritePublication(p: GC.Publication) returns (answer: Answer)
      modifies this
      ensures answer == if IdsTaken(old(View()), p) then Conflict else Done
      ensures View() == if IdsTaken(old(View()), p) then old(View()) else Issue(old(View()), p)
    {
      if executionAttempts.Has(p.attempt.identity.id) || executionGrants.Has(p.grant.body.id)
        || actionReceipts.Has(p.receipt.body.id) {
        return Conflict;
      }
      actionReceipts := actionReceipts.Set(p.receipt.body.id, p.receipt);
      executionGrants := executionGrants.Set(p.grant.body.id, p.grant);
      executionAttempts := executionAttempts.Set(p.attempt.identity.id, p.attempt);
      executionAttemptByToolCall := executionAttemptByToolCall[KeyOf(p.attempt) := p.attempt.identity.id];
      toolCalls := toolCalls.Set(p.toolCall.Id(), p.toolCall);
      return Done;
    }

    /** The tests of a publication on the records it found; `Done` lets it go on. */
    method JudgePublication(text: Hash -> string, p: GC.Publication, stored: GC.Stored) returns (answer: Answer)
      requires GC.PublicationCandidate(p, text)
      ensures answer == AnswerOf(GC.Publish(p, text, stored).1)
    {
      if stored.attempt.Some? || stored.receipt.Some? || stored.grant.Some? || stored.toolCall.status == Authorized {
        return if GC.SamePublication(p, stored) then Replay else Conflict;
      }
      if stored.approval.status != Approved || stored.toolCall.status != PendingApproval {
        return StateMismatch;
      }
      return if GC.PublicationMatchesCurrent(p, stored.approval, stored.toolCall) then Done else BindingMismatch;
    }

    method RecordActionReceiptOutcomeAtomically(receiptId: string, outcome: ReceiptOutcome) returns (answer: Answer)
      modifies this`actionReceipts
      ensures (View(), answer) == RecordReceiptOutcome(old(View()), receiptId, outcome)
    {
      var current := actionReceipts.Get(receiptId);
      if current.None? {
        return NotFound;
      }
      if current.value.outcome.Some? {
        return Existing;
      }
      var receipt := current.value.(outcome := Some(outcome));
      actionReceipts := actionReceipts.Set(receipt.body.id, receipt);
      return Done;
    }
  }

  // ------------------------------------------------------------ what every transaction keeps

  /** Attempts are stored under their own ids, and each call has at most one, found by the call. */
  ghost predicate AttemptsKeyed(t: Tables) {
    && (forall id | id in t.attempts.at ::
          && t.attempts.at[id].identity.id == id && id != ""
          && KeyOf(t.attempts.at[id]) in t.attemptOf && t.attemptOf[KeyOf(t.attempts.at[id])] == id)
    && (forall key | key in t.attemptOf ::
          t.attemptOf[key] in t.attempts.at && KeyOf(t.attempts.at[t.attemptOf[key]]) == key)
  }

  /** Every record is stored under its own id. */
  ghost predicate Keyed(t: Tables) {
    && AttemptsKeyed(t)
    && (forall id | id in t.toolCalls.at :: t.toolCalls.at[id].Id() == id)
    && (forall id | id in t.approvals.at :: t.approvals.at[id].id == id)
    && (forall id | id in t.grants.at :: t.grants.at[id].body.id == id)
    && ReceiptsKeyed(t.receipts)
  }

  ghost predicate ReceiptsKeyed(receipts: Table<Receipt>) {
    forall id | id in receipts.at :: receipts.at[id].body.id == id
  }

  /** The same attempt at two times: who it is and what it is bound to stay, and so does its grant once it has one. */
  predicate SameAttempt(a: Attempt, b: Attempt) {
    && a.identity == b.identity && a.binding == b.binding
    && (Truthy(a.grantId) ==> b.grantId == a.grantId)
  }

  /** The same grant at two times: what was signed and the signature stay, and a consumption stays. */
  predicate SameGrant(a: Grant, b: Grant) {
    a.body == b.body && a.signature == b.signature && (a.consumedAt.Some? ==> b.consumedAt == a.consumedAt)
  }

  /** What no transaction takes back. */
  ghost predicate Lasting(s: Tables, t: Tables) {
    && (forall id | id in s.attempts.at :: id in t.attempts.at && SameAttempt(s.attempts.at[id], t.attempts.at[id]))
    && (forall key | key in s.attemptOf :: key in t.attemptOf && t.attemptOf[key] == s.attemptOf[key])
    && (forall id | id in s.grants.at :: id in t.grants.at && SameGrant(s.grants.at[id], t.grants.at[id]))
  }

  lemma LastingIsTransitive(r: Tables, s: Tables, t: Tables)
    requires Lasting(r, s) && Lasting(s, t)
    ensures Lasting(r, t)
  {
  }

  /** A step between two states of the tables that is as good as a transaction. */
  ghost predicate Good(s: Tables, t: Tables) { Keyed(t) && Lasting(s, t) }

  lemma NothingChanges(t: Tables)
    requires Keyed(t)
    ensures Good(t, t)
  {
  }

  lemma CallSet(t: Tables, call: ToolCall, receipts: Table<Receipt>)
    requires Keyed(t) && ReceiptsKeyed(receipts)
    ensures Good(t, t.(toolCalls := t.toolCalls.Set(call.Id(), call), receipts := receipts))
  {
  }

  lemma ReceiptsSet(t: Tables, receipts: Table<Receipt>)
    requires Keyed(t) && ReceiptsKeyed(receipts)
    ensures Good(t, t.(receipts := receipts))
  {
  }

  lemma ApprovalSet(t: Tables, a: Approval)
    requires Keyed(t)
    ensures Good(t, t.(approvals := t.approvals.Set(a.id, a)))
  {
  }

  lemma ScopesSet(t: Tables, scopes: map<CallKey, seq<CE.Exposure>>)
    requires Keyed(t)
    ensures Good(t, t.(scopes := scopes))
  {
  }

  lemma AddedIsKeyed(t: Tables, a: Attempt)
    requires AttemptsKeyed(t) && a.identity.id != "" && a.identity.id !in t.attempts.at && KeyOf(a) !in t.attemptOf
    ensures AttemptsKeyed(AddAttempt(t, a))
  {
  }

  lemma AddedLasts(t: Tables, a: Attempt)
    requires a.identity.id !in t.attempts.at && KeyOf(a) !in t.attemptOf
    ensures Lasting(t, AddAttempt(t, a))
  {
  }

  lemma AttemptAdded(t: Tables, a: Attempt)
    requires Keyed(t) && a.identity.id != "" && a.identity.id !in t.attempts.at && KeyOf(a) !in t.attemptOf
    ensures Good(t, AddAttempt(t, a))
  {
    AddedIsKeyed(t, a);
    AddedLasts(t, a);
  }

  lemma UpdatedIsKeyed(t: Tables, a: Attempt)
    requires AttemptsKeyed(t) && a.identity.id in t.attempts.at && SameAttempt(t.attempts.at[a.identity.id], a)
    ensures AttemptsKeyed(WriteAttempt(t, a))
  {
  }

  lemma AttemptUpdated(t: Tables, a: Attempt)
    requires Keyed(t) && a.identity.id in t.attempts.at && SameAttempt(t.attempts.at[a.identity.id], a)
    ensures Good(t, WriteAttempt(t, a))
  {
    UpdatedIsKeyed(t, a);
    UpdatedLasts(t, a);
  }

  lemma UpdatedLasts(t: Tables, a: Attempt)
    requires a.identity.id in t.attempts.at && SameAttempt(t.attempts.at[a.identity.id], a)
    ensures Lasting(t, WriteAttempt(t, a))
  {
  }

  lemma GrantSet(t: Tables, g: Grant)
    requires Keyed(t) && (g.body.id in t.grants.at ==> SameGrant(t.grants.at[g.body.id], g))
    ensures Good(t, t.(grants := t.grants.Set(g.body.id, g)))
  {
  }

  lemma GoodThenGood(r: Tables, s: Tables, t: Tables)
    requires Good(r, s) && Good(s, t)
    ensures Good(r, t)
  {
    LastingIsTransitive(r, s, t);
  }

  lemma KeysAreNotEmpty(t: Tables, key: CallKey)
    requires Keyed(t) && key in t.attemptOf
    ensures t.attemptOf[key] != ""
  {
  }

  lemma ReserveLasts(parse: AA.Parse, now: int, t: Tables, record: Attempt, presented: Option<Authorization>)
    requires Keyed(t)
    ensures Good(t, Reserve(parse, now, t, record, presented).0)
  {
    if Reserve(parse, now, t, record, presented).1 == Done {
      if KeyOf(record) in t.attemptOf {
        KeysAreNotEmpty(t, KeyOf(record));
      }
      AttemptAdded(t, record);
    } else {
      NothingChanges(t);
    }
  }

  lemma BindLasts(t: Tables, i: BindInput)
    requires Keyed(t)
    ensures Good(t, Bind(t, i).0)
  {
    if Bind(t, i).1 == Done {
      AttemptUpdated(t, t.attempts.at[i.attemptId].(grantId := Some(i.grantId), updatedAt := i.at));
    } else {
      NothingChanges(t);
    }
  }

  /** Grant and attempt are swapped together. */
  lemma SwapLasts(t: Tables, a: Attempt, g: Grant)
    requires Keyed(t) && a.identity.id in t.attempts.at && SameAttempt(t.attempts.at[a.identity.id], a)
    requires g.body.id in t.grants.at && SameGrant(t.grants.at[g.body.id], g)
    ensures Good(t, Swap(t, a, g))
  {
    var u := t.(attempts := t.attempts.Set(a.identity.id, a));
    AttemptUpdated(t, a);
    GrantSet(u, g);
    GoodThenGood(t, u, u.(grants := u.grants.Set(g.body.id, g)));
  }

  // A refused transaction writes nothing.

  lemma RefusedDispatchKeeps(t: Tables, i: DispatchInput)
    ensures Dispatch(t, i).1 != Done ==> Dispatch(t, i).0 == t
  {
  }

  lemma RefusedTransitionKeeps(t: Tables, i: TransitionInput)
    ensures Transition(t, i).1 != Done ==> Transition(t, i).0 == t
  {
  }

  lemma RefusedPublicationKeeps(text: Hash -> string, t: Tables, p: GC.Publication)
    ensures Publish(text, t, p).1 != Done ==> Publish(text, t, p).0 == t
  {
  }

  lemma DispatchWrites(t: Tables, i: DispatchInput)
    requires Dispatch(t, i).1 == Done
    ensures i.attemptId in t.attempts.at && i.grantId in t.grants.at
    ensures t.attempts.at[i.attemptId].state == Reserved && t.attempts.at[i.attemptId].grantId == Some(i.grantId)
    ensures t.grants.at[i.grantId].consumedAt == None
    ensures Dispatch(t, i).0
         == Swap(t, DispatchedAttempt(t.attempts.at[i.attemptId], i.at), t.grants.at[i.grantId].(consumedAt := Some(i.at)))
  {
  }

  lemma DispatchedAreStored(t: Tables, attemptId: string, grantId: string, at: Timestamp)
    requires Keyed(t) && attemptId in t.attempts.at && grantId in t.grants.at && t.grants.at[grantId].consumedAt == None
    ensures var a := DispatchedAttempt(t.attempts.at[attemptId], at);
            a.identity.id == attemptId && SameAttempt(t.attempts.at[attemptId], a)
    ensures var g := t.grants.at[grantId].(consumedAt := Some(at));
            g.body.id == grantId && SameGrant(t.grants.at[grantId], g)
  {
  }

  lemma DispatchLasts(t: Tables, i: DispatchInput)
    requires Keyed(t)
    ensures Good(t, Dispatch(t, i).0)
  {
    if Dispatch(t, i).1 == Done {
      DispatchWrites(t, i);
      DispatchedAreStored(t, i.attemptId, i.grantId, i.at);
      SwapLasts(t, DispatchedAttempt(t.attempts.at[i.attemptId], i.at), t.grants.at[i.grantId].(consumedAt := Some(i.at)));
    } else {
      NothingChanges(t);
    }
  }

  lemma TransitionWrites(t: Tables, i: TransitionInput)
    requires Transition(t, i).1 == Done
    ensures i.attemptId in t.attempts.at
    ensures SameAttempt(t.attempts.at[i.attemptId], TransitionedAttempt(t.attempts.at[i.attemptId], i))
    ensures Transition(t, i).0 == WriteAttempt(t, TransitionedAttempt(t.attempts.at[i.attemptId], i))
  {
  }

  lemma TransitionLasts(t: Tables, i: TransitionInput)
    requires Keyed(t)
    ensures Good(t, Transition(t, i).0)
  {
    if Transition(t, i).1 == Done {
      TransitionWrites(t, i);
      AttemptUpdated(t, TransitionedAttempt(t.attempts.at[i.attemptId], i));
    } else {
      NothingChanges(t);
    }
  }

  /** A created publication is of a call without an attempt, under ids that are not taken. */
  lemma CreatedIsNew(text: Hash -> string, t: Tables, p: GC.Publication)
    requires Keyed(t) && Publish(text, t, p).1 == Done
    ensures p.attempt.identity.id !in t.attempts.at && p.grant.body.id !in t.grants.at
    ensures KeyOf(p.attempt) == (p.toolCall.WorkspaceId(), p.toolCall.Id()) && KeyOf(p.attempt) !in t.attemptOf
    ensures p.approvalId in t.approvals.at && p.toolCall.Id() in t.toolCalls.at
    ensures GC.Publish(p, text, StoredFor(t, p, t.approvals.at[p.approvalId], t.toolCalls.at[p.toolCall.Id()])).1 == GC.Created
    ensures Publish(text, t, p).0 == Issue(t, p) && p.grant.consumedAt == None
  {
    var key := (p.toolCall.WorkspaceId(), p.toolCall.Id());
    if key in t.attemptOf {
      KeysAreNotEmpty(t, key);
    }
  }

  lemma IssueLasts(t: Tables, p: GC.Publication)
    requires Keyed(t) && p.attempt.identity.id != "" && p.attempt.identity.id !in t.attempts.at
    requires KeyOf(p.attempt) !in t.attemptOf && p.grant.body.id !in t.grants.at
    ensures Good(t, Issue(t, p))
  {
    var u := AddAttempt(t, p.attempt);
    AttemptAdded(t, p.attempt);
    var v := u.(grants := u.grants.Set(p.grant.body.id, p.grant));
    GrantSet(u, p.grant);
    GoodThenGood(t, u, v);
    CallSet(v, p.toolCall, t.receipts.Set(p.receipt.body.id, p.receipt));
    GoodThenGood(t, v, Issue(t, p));
  }

  lemma PublishLasts(text: Hash -> string, t: Tables, p: GC.Publication)
    requires Keyed(t) && p.attempt.identity.id != ""
    ensures Good(t, Publish(text, t, p).0)
  {
    if Publish(text, t, p).1 == Done {
      CreatedIsNew(text, t, p);
      IssueLasts(t, p);
    } else {
      NothingChanges(t);
    }
  }

  /** The records of one call, written back after an outcome. */
  lemma WrittenBackLasts(t: Tables, d: Current)
    requires Keyed(t) && d.attempt.identity.id in t.attempts.at
    requires SameAttempt(t.attempts.at[d.attempt.identity.id], d.attempt)
    ensures Good(t, WriteProjection(WriteAttempt(t, d.attempt), d))
  {
    AttemptUpdated(t, d.attempt);
    CallSet(WriteAttempt(t, d.attempt), d.toolCall, t.receipts.Set(d.receipt.body.id, d.receipt));
    GoodThenGood(t, WriteAttempt(t, d.attempt), WriteProjection(WriteAttempt(t, d.attempt), d));
  }

  /** What a recording looks up is stored, and an accepted one leaves the attempt what it was. */
  lemma RecordableIsStored(t: Tables, r: OA.Recording)
    requires Keyed(t) && Recordable(t, r).Some?
    ensures var c := Recordable(t, r).value;
            && c.attempt.identity.id in t.attempts.at && t.attempts.at[c.attempt.identity.id] == c.attempt
            && (OA.RecordAtomically(r, c).1 == OA.Recorded ==> SameAttempt(c.attempt, OA.RecordAtomically(r, c).0.attempt))
  {
    var c := Recordable(t, r).value;
    assert t.attempts.at[r.attemptId] == c.attempt && c.attempt.identity.id == r.attemptId;
    if OA.RecordAtomically(r, c).1 == OA.Recorded {
      OA.RecordedIs(r, c);
    }
  }

  lemma RecordOutcomeLasts(t: Tables, r: OA.Recording)
    requires Keyed(t)
    ensures Good(t, RecordOutcome(t, r).0)
    ensures forall id | id in RecordOutcome(t, r).0.attempts.at :: id in t.attempts.at
  {
    NothingChanges(t);
    var c := Recordable(t, r);
    if c.Some? {
      RecordableIsStored(t, r);
      var (d, verdict) := OA.RecordAtomically(r, c.value);
      if verdict == OA.Recorded {
        WrittenBackLasts(t, d);
      }
    }
  }

  lemma AdoptOutcomeLasts(t: Tables, i: OA.Adoption)
    requires Keyed(t)
    ensures Good(t, AdoptOutcome(t, i).0)
  {
    NothingChanges(t);
    var c := Adoptable(t, i);
    if c.Some? {
      var d := OA.AdoptAtomically(i, c.value).0;
      CallSet(t, d.toolCall, t.receipts.Set(d.receipt.body.id, d.receipt));
    }
  }

  lemma RecordReceiptOutcomeLasts(t: Tables, receiptId: string, o: ReceiptOutcome)
    requires Keyed(t)
    ensures Good(t, RecordReceiptOutcome(t, receiptId, o).0)
  {
    ReceiptsSet(t, RecordReceiptOutcome(t, receiptId, o).0.receipts);
  }

  lemma RecordExposureLasts(t: Tables, workspaceId: string, scopeId: string, x: CE.Exposure)
    requires Keyed(t)
    ensures Good(t, RecordExposure(t, workspaceId, scopeId, x))
  {
    ScopesSet(t, RecordExposure(t, workspaceId, scopeId, x).scopes);
  }
}
