/**
  The server side of grant consumption and outcome reporting, as steps that interleave: every
  step is one store operation with the checks around it. A request that is never advanced
  again is a process that crashed there.

  The store operations are those of the memory store: compare-and-swap for the grant, the
  attempt and the receipt outcome, a blind write for the call, append-once for exposures and
  audit events.
 */
module GrantProtocol {
  import opened Basics
  import opened Records
  import opened OutcomeReports
  import CE = ContentExposures
  import CI = ContentInfluence

  // ------------------------------------------------------------ state

  datatype AttemptCell = AttemptCell(state: AttemptState, grantId: Option<string>, outcome: Option<AttemptOutcome>)

  /** The audit events with a deterministic id, and all others. */
  datatype AuditId = ContentExposureRecorded | OutcomeRecorded | CallExecuted | CallFailed | AttemptCompleted | OtherEvent(n: nat)

  /**
    The store. `grants` maps a grant to the time of its consumption; `scope` is the exposure
    history of the call's scope. `winner` is no stored record but the history of the protocol:
    the report that completed the attempt.
   */
  datatype Store = Store(
    grants: map<string, Option<Timestamp>>,
    attempt: AttemptCell,
    call: CallState,
    receipt: Option<ReceiptOutcome>,
    scope: seq<CE.Exposure>,
    audit: seq<AuditId>,
    winner: Option<Report>)

  function Initial(u: Setup, scope: seq<CE.Exposure>): Store {
    Store(map[], AttemptCell(Reserved, None, None), u.initial, None, scope, [], None)
  }

  datatype Refusal = NotFound | NotConsumed | AlreadyConsumed | NotBound | NotCurrent | Unacceptable
    | OutcomeConflict | NotDispatched | InfluenceChanged | Withheld | StoreFailed

  /** Where a consumption stands. */
  datatype Consuming = ReadingGrant | Dispatching | Dispatched_ | ConsumeRefused(why: Refusal)

  /** Where an outcome report stands, with what it has read so far. */
  datatype Reporting =
    | AtGrant
    | AtCall
    | AtAttempt(call: CallState)
    | AtReceipt(call: CallState, seen: AttemptCell)
    | AtTransition(call: CallState, at: Timestamp)
    | AtReceiptWrite(call: CallState, at: Timestamp, replay: bool)
    | AtCallWrite(call: CallState, at: Timestamp, replay: bool)
    | AtExposure(delivered: CallState)
    | AtExposureAudit(delivered: CallState)
    | AtRelease(delivered: CallState)
    | AtOutcomeAudit(delivered: CallState)
    | AtCallAudit(delivered: CallState)
    | AtAttemptAudit(delivered: CallState)
    | Reported(delivered: CallState)
    | ReportRefused(why: Refusal)

  datatype Handler =
    | Consume(grantId: string, consuming: Consuming)
    | ReportOutcome(grantId: string, report: Report, reporting: Reporting)

  /** What a step draws from outside: the clock, a store failure, and checks on records that are not part of the state. */
  datatype Env = Env(now: Timestamp, fails: bool, checksPass: bool)

  // ------------------------------------------------------------ store operations

  /** `consumeExecutionGrantAndDispatchAttemptAtomically`. */
  function DispatchAtomically(s: Store, grantId: string, guard: Option<CI.RevisionGuard>, now: Timestamp): (Store,
      Option<Refusal>) {
    if grantId !in s.grants then (s, Some(NotFound))
    else if s.grants[grantId].Some? then (s, Some(AlreadyConsumed))
    else if s.attempt.state != Reserved then (s, Some(NotDispatched))
    else if s.attempt.grantId != Some(grantId) then (s, Some(NotBound))
    else if guard.Some? && guard.value.revision != |s.scope| then (s, Some(InfluenceChanged))
    else
      (s.(grants := s.grants[grantId := Some(now)], attempt := s.attempt.(state := Dispatched)), None)
  }

  datatype Transition = Transitioned | ReplayOrTerminal | WrongState

  /** `transitionExecutionAttemptAtomically` from `dispatched`. */
  function TransitionAtomically(s: Store, r: Report, o: AttemptOutcome): (Store, Transition) {
    if Terminal(s.attempt.state) then (s, ReplayOrTerminal)
    else if s.attempt.state != Dispatched then (s, WrongState)
    else (s.(attempt := s.attempt.(state := o.status, outcome := Some(o)), winner := Some(r)), Transitioned)
  }

  /** `recordActionReceiptOutcomeAtomically`: the first outcome stays. */
  function RecordReceiptAtomically(s: Store, o: ReceiptOutcome): Store {
    if s.receipt.Some? then s else s.(receipt := Some(o))
  }

  function AppendOnce(audit: seq<AuditId>, id: AuditId): seq<AuditId> {
    if id in audit then audit else audit + [id]
  }

  /** The exposure that this call leaves in its scope. */
  function OwnExposure(u: Setup, now: Timestamp): CE.Exposure {
    var source := if ClassifiedSource(u) then u.identity.resultSource.value else Classified(CE.Unknown, None);
    CE.Exposure(u.identity.id, now, source.integrity, source.sourceId, u.policyVersionHash)
  }

  predicate Exposed(u: Setup, s: Store) {
    exists x | x in s.scope :: x.sourceToolCallId == u.identity.id
  }

  // ------------------------------------------------------------ steps

  /** `currentToolCallMismatch` on the parts that can change: the status, and withholding before dispatch. */
  predicate CallCurrent(u: Setup, c: CallState, allowTerminal: bool) {
    && (c.status == Authorized || (allowTerminal && (c.status == Executed || c.status == FailedCall)))
    && (ClassifiedMcp(u) && c.status == Authorized ==> c.withheld == Some(true))
  }

  /** `contentExposureRevisionGuard`: the scope's revision that the call's decision was computed from. */
  function RevisionGuard(u: Setup): Option<CI.RevisionGuard> {
    CI.RevisionGuardOf(HASHES, u.identity.contentInfluence, AuthoritativeScopeId(u.identity, u.envelope))
  }

  function StepConsume(u: Setup, s: Store, h: Handler, e: Env): (Store, Handler)
    requires h.Consume?
  {
    match h.consuming
    case ReadingGrant =>
      var next :=
        if e.fails then ConsumeRefused(StoreFailed)
        else if h.grantId !in s.grants then ConsumeRefused(NotFound)
        else if s.grants[h.grantId].Some? then ConsumeRefused(AlreadyConsumed)
        else if s.attempt.state != Reserved || s.attempt.grantId != Some(h.grantId) then ConsumeRefused(NotBound)
        else if !e.checksPass || !McpEvidenceConsistent(u.identity, u.envelope) || !CallCurrent(u, s.call, false) then ConsumeRefused(NotCurrent)
        else Dispatching;
      (s, h.(consuming := next))
    case Dispatching =>
      if e.fails then (s, h.(consuming := ConsumeRefused(StoreFailed)))
      else
        var (t, refusal) := DispatchAtomically(s, h.grantId, RevisionGuard(u), e.now);
        (t, h.(consuming := if refusal.Some? then ConsumeRefused(refusal.value) else Dispatched_))
    case _ => (s, h)
  }

  /** After the receipt: what is delivered, and whether exposure comes first. */
  function AfterCallWrite(u: Setup, r: Report, delivered: CallState): Reporting {
    if ExposureRequired(u, Rewritten(u, r)) && delivered.withheld != Some(false) then AtExposure(delivered)
    else AtOutcomeAudit(delivered)
  }

  function Refuse(s: Store, h: Handler, why: Refusal): (Store, Handler)
    requires h.ReportOutcome?
  {
    (s, h.(reporting := ReportRefused(why)))
  }

  function ReadGrant(s: Store, h: Handler, e: Env): (Store, Handler)
    requires h.ReportOutcome?
  {
    if e.fails then Refuse(s, h, StoreFailed)
    else if h.grantId !in s.grants then Refuse(s, h, NotFound)
    else if s.grants[h.grantId].None? then Refuse(s, h, NotConsumed)
    else (s, h.(reporting := AtCall))
  }

  function ReadCall(s: Store, h: Handler, e: Env): (Store, Handler)
    requires h.ReportOutcome?
  {
    if e.fails then Refuse(s, h, StoreFailed) else (s, h.(reporting := AtAttempt(s.call)))
  }

  function ReadAttempt(u: Setup, s: Store, h: Handler, call: CallState, e: Env): (Store, Handler)
    requires h.ReportOutcome?
  {
    if e.fails then Refuse(s, h, StoreFailed)
    else if s.attempt.grantId != Some(h.grantId) then Refuse(s, h, NotBound)
    else if !CallCurrent(u, call, s.attempt.state != Dispatched) then Refuse(s, h, NotCurrent)
    else if !Acceptable(u, h.report) then Refuse(s, h, Unacceptable)
    else (s, h.(reporting := AtReceipt(call, s.attempt)))
  }

  function ReadReceipt(u: Setup, s: Store, h: Handler, call: CallState, seen: AttemptCell, e: Env): (Store, Handler)
    requires h.ReportOutcome?
  {
    if e.fails then Refuse(s, h, StoreFailed)
    else if u.hasReceipt && s.receipt.Some? && !SameReceiptOutcome(s.receipt.value, ReceiptOutcomeOf(u, h.report, ""))
    then Refuse(s, h, OutcomeConflict)
    else
      (s, h.(reporting := AtTransition(call, if seen.outcome.Some? then seen.outcome.value.recordedAt else e.now)))
  }

  /**
    The compare-and-swap of the attempt. A terminal attempt is compared with the report in the
    same step: the source reads it again, but a terminal attempt no longer changes.
   */
  function CompleteAttempt(u: Setup, s: Store, h: Handler, call: CallState, at: Timestamp, e: Env): (Store, Handler)
    requires h.ReportOutcome?
  {
    if e.fails then Refuse(s, h, StoreFailed)
    else
      var o := OutcomeOf(u, h.report, at);
      var (t, transition) := TransitionAtomically(s, h.report, o);
      match transition
      case Transitioned => (t, h.(reporting := AtReceiptWrite(call, at, false)))
      case WrongState => Refuse(s, h, NotDispatched)
      case ReplayOrTerminal =>
        if s.attempt.outcome.Some? && SameAttemptOutcome(s.attempt.outcome.value, o)
        then (s, h.(reporting := AtReceiptWrite(call, at, true)))
        else Refuse(s, h, OutcomeConflict)
  }

  function WriteReceipt(u: Setup, s: Store, h: Handler, call: CallState, at: Timestamp, replay: bool,
      e: Env): (Store, Handler)
    requires h.ReportOutcome?
  {
    if e.fails then Refuse(s, h, StoreFailed)
    else if !u.hasReceipt then (s, h.(reporting := AtCallWrite(call, at, replay)))
    else
      var o := ReceiptOutcomeOf(u, h.report, at);
      var t := RecordReceiptAtomically(s, o);
      if !SameReceiptOutcome(t.receipt.value, o) then Refuse(t, h, OutcomeConflict)
      else (t, h.(reporting := AtCallWrite(call, at, replay)))
  }

  function WriteCall(u: Setup, s: Store, h: Handler, call: CallState, at: Timestamp, replay: bool, e: Env): (Store, Handler)
    requires h.ReportOutcome?
  {
    if replay && call.status != Authorized then (s, h.(reporting := AfterCallWrite(u, h.report, call)))
    else if e.fails then Refuse(s, h, StoreFailed)
    else
      var terminal := TerminalCallOf(u, call, h.report, at);
      (s.(call := terminal), h.(reporting := AfterCallWrite(u, h.report, terminal)))
  }

  function RecordExposure(u: Setup, s: Store, h: Handler, delivered: CallState, e: Env): (Store, Handler)
    requires h.ReportOutcome?
  {
    var x := OwnExposure(u, e.now);
    if e.fails || !ScopeVerified(u) || CE.Verdict(s.scope, x) == CE.Conflict then Refuse(s, h, Withheld)
    else (s.(scope := CE.Record(s.scope, x)), h.(reporting := AtExposureAudit(delivered)))
  }

  function AuditExposure(s: Store, h: Handler, delivered: CallState, e: Env): (Store, Handler)
    requires h.ReportOutcome?
  {
    if e.fails then Refuse(s, h, Withheld)
    else (s.(audit := AppendOnce(s.audit, ContentExposureRecorded)), h.(reporting := AtRelease(delivered)))
  }

  function ReleaseResult(s: Store, h: Handler, delivered: CallState, e: Env): (Store, Handler)
    requires h.ReportOutcome?
  {
    if e.fails then Refuse(s, h, Withheld)
    else
      var released := delivered.(withheld := Some(false), updatedAt := e.now);
      (s.(call := released), h.(reporting := AtOutcomeAudit(released)))
  }

  /** An audit event that does not hold up the report when it cannot be stored. */
  function AuditBestEffort(s: Store, h: Handler, id: AuditId, next: Reporting, e: Env): (Store, Handler)
    requires h.ReportOutcome?
  {
    (if e.fails then s else s.(audit := AppendOnce(s.audit, id)), h.(reporting := next))
  }

  function CallEvent(r: Report): AuditId {
    if r.status == ReportSucceeded then CallExecuted else CallFailed
  }

  function StepReport(u: Setup, s: Store, h: Handler, e: Env): (Store, Handler)
    requires h.ReportOutcome?
  {
    match h.reporting
    case AtGrant => ReadGrant(s, h, e)
    case AtCall => ReadCall(s, h, e)
    case AtAttempt(call) => ReadAttempt(u, s, h, call, e)
    case AtReceipt(call, seen) => ReadReceipt(u, s, h, call, seen, e)
    case AtTransition(call, at) => CompleteAttempt(u, s, h, call, at, e)
    case AtReceiptWrite(call, at, replay) => WriteReceipt(u, s, h, call, at, replay, e)
    case AtCallWrite(call, at, replay) => WriteCall(u, s, h, call, at, replay, e)
    case AtExposure(delivered) => RecordExposure(u, s, h, delivered, e)
    case AtExposureAudit(delivered) => AuditExposure(s, h, delivered, e)
    case AtRelease(delivered) => ReleaseResult(s, h, delivered, e)
    case AtOutcomeAudit(delivered) => AuditBestEffort(s, h, OutcomeRecorded, AtCallAudit(delivered), e)
    case AtCallAudit(delivered) => AuditBestEffort(s, h, CallEvent(h.report), AtAttemptAudit(delivered), e)
    case AtAttemptAudit(delivered) => AuditBestEffort(s, h, AttemptCompleted, Reported(delivered), e)
    case Reported(_) => (s, h)
    case ReportRefused(_) => (s, h)
  }

  function StepHandler(u: Setup, s: Store, h: Handler, e: Env): (Store, Handler) {
    if h.Consume? then StepConsume(u, s, h, e) else StepReport(u, s, h, e)
  }

  // ------------------------------------------------------------ runs

  datatype World = World(store: Store, handlers: seq<Handler>)

  /**
    `Arrive` is a request that reaches the server; `Advance` lets one request do its next step.
    `Expose` is an exposure of the same scope by another call.
   */
  datatype Event =
    | CreateGrant(grantId: string)
    | BindGrant(grantId: string)
    | ArriveConsume(grantId: string)
    | ArriveReport(grantId: string, report: Report)
    | Advance(index: nat, env: Env)
    | Expose(exposure: CE.Exposure)

  function Next(u: Setup, w: World, a: Event): World {
    var s := w.store;
    match a
    case CreateGrant(g) => if g in s.grants then w else w.(store := s.(grants := s.grants[g := None]))
    case BindGrant(g) =>
      if g !in s.grants || s.attempt.state != Reserved || s.attempt.grantId.Some? then w
      else w.(store := s.(attempt := s.attempt.(grantId := Some(g))))
    case ArriveConsume(g) => w.(handlers := w.handlers + [Consume(g, ReadingGrant)])
    case ArriveReport(g, r) => w.(handlers := w.handlers + [ReportOutcome(g, r, AtGrant)])
    case Advance(i, e) =>
      if i >= |w.handlers| then w
      else
        var (t, h) := StepHandler(u, s, w.handlers[i], e);
        World(t, w.handlers[i := h])
    case Expose(x) =>
      if x.sourceToolCallId == u.identity.id then w else w.(store := s.(scope := CE.Record(s.scope, x)))
  }

  function Run(u: Setup, scope: seq<CE.Exposure>, actions: seq<Event>): World {
    if actions == [] then World(Initial(u, scope), [])
    else Next(u, Run(u, scope, actions[..|actions| - 1]), actions[|actions| - 1])
  }

  /** The scope before the call is dispatched: one record per source, none of this call. */
  ghost predicate FreshScope(u: Setup, scope: seq<CE.Exposure>) {
    CE.OncePerSource(scope) && forall x | x in scope :: x.sourceToolCallId != u.identity.id
  }
}
