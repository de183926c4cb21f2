/** What every reachable state of the grant protocol keeps. */
module ProtocolSafety {
  import opened Basics
  import opened Records
  import opened OutcomeReports
  import opened GrantProtocol
  import CE = ContentExposures
  import CI = ContentInfluence

  // ------------------------------------------------------------ the store

  /** The attempt is terminal exactly when it has a winner, and then records what the winner reported. */
  ghost predicate AttemptSound(u: Setup, s: Store) {
    && (Terminal(s.attempt.state) <==> s.winner.Some?)
    && (s.attempt.outcome.Some? <==> s.winner.Some?)
    && (s.winner.Some? ==>
          && Acceptable(u, s.winner.value)
          && SameAttemptOutcome(s.attempt.outcome.value, OutcomeOf(u, s.winner.value, ""))
          && s.attempt.state == s.attempt.outcome.value.status)
  }

  /** A consumed grant is the attempt's own, and a dispatched attempt has one. */
  ghost predicate GrantsSound(s: Store) {
    && (forall g | g in s.grants && s.grants[g].Some? :: s.attempt.grantId == Some(g) && s.attempt.state != Reserved)
    && (s.attempt.grantId.Some? ==> s.attempt.grantId.value in s.grants)
    && (s.attempt.state != Reserved ==> s.attempt.grantId.Some? && s.grants[s.attempt.grantId.value].Some?)
  }

  /** The call is as it was dispatched, or as the winner reported it. */
  ghost predicate CallSound(u: Setup, s: Store, c: CallState) {
    c == u.initial
    || (s.winner.Some?
        && SameProjection(c, TerminalCallOf(u, u.initial, s.winner.value, ""))
        && (c.withheld == Some(ExposureRequired(u, Rewritten(u, s.winner.value))) || c.withheld == Some(false)))
  }

  /** The call is projected, and if it no longer withholds a result that needs exposure, that is recorded. */
  ghost predicate ReleaseSound(u: Setup, s: Store, c: CallState) {
    c != u.initial && s.winner.Some? && ExposureRequired(u, Rewritten(u, s.winner.value)) && c.withheld == Some(false) ==>
      Exposed(u, s) && ContentExposureRecorded in s.audit
  }

  ghost predicate ReceiptSound(u: Setup, s: Store) {
    s.receipt.Some? ==>
      u.hasReceipt && s.winner.Some? && SameReceiptOutcome(s.receipt.value, ReceiptOutcomeOf(u, s.winner.value, ""))
  }

  ghost predicate ScopeSound(u: Setup, s: Store) {
    && CE.OncePerSource(s.scope)
    && (Exposed(u, s) ==> s.winner.Some? && ExposureRequired(u, Rewritten(u, s.winner.value)))
    && forall x | x in s.scope && x.sourceToolCallId == u.identity.id :: CE.SameEvidence(x, OwnExposure(u, ""))
  }

  ghost predicate OnceEach(audit: seq<AuditId>) {
    forall i, j | 0 <= i < j < |audit| :: audit[i] != audit[j]
  }

  /** Events with a deterministic id tell what happened: they name the winner's outcome. */
  ghost predicate AuditSound(u: Setup, s: Store) {
    && OnceEach(s.audit)
    && ((exists id | id in s.audit :: !id.OtherEvent?) ==> s.winner.Some?)
    && (CallExecuted in s.audit ==> s.winner.value.status == ReportSucceeded)
    && (CallFailed in s.audit ==> s.winner.value.status != ReportSucceeded)
    && (ContentExposureRecorded in s.audit ==> ExposureRequired(u, Rewritten(u, s.winner.value)))
  }

  ghost predicate StoreSound(u: Setup, s: Store) {
    && AttemptSound(u, s)
    && GrantsSound(s)
    && CallSound(u, s, s.call) && ReleaseSound(u, s, s.call)
    && ReceiptSound(u, s)
    && ScopeSound(u, s)
    && AuditSound(u, s)
  }

  // ------------------------------------------------------------ requests in flight

  /** The report is one the server would record, and it is what the attempt records. */
  ghost predicate Won(u: Setup, s: Store, r: Report) {
    Acceptable(u, r) && s.winner.Some? && Alike(u, r, s.winner.value)
  }

  /** A call that a request has read or written. */
  ghost predicate SnapshotSound(u: Setup, s: Store, c: CallState) {
    CallSound(u, s, c) && ReleaseSound(u, s, c) && (c != u.initial ==> s.call != u.initial)
  }

  /** The call that a request delivers: projected by now. */
  ghost predicate DeliveredSound(u: Setup, s: Store, c: CallState) {
    SnapshotSound(u, s, c) && c.status != Authorized && s.call != u.initial
  }

  ghost predicate ReportSound(u: Setup, s: Store, r: Report, p: Reporting) {
    match p
    case AtGrant => true
    case AtCall => s.attempt.state != Reserved
    case AtAttempt(c) => s.attempt.state != Reserved && SnapshotSound(u, s, c)
    case AtReceipt(c, seen) =>
      s.attempt.state != Reserved && SnapshotSound(u, s, c) && Acceptable(u, r)
    case AtTransition(c, at) =>
      s.attempt.state != Reserved && SnapshotSound(u, s, c) && Acceptable(u, r)
    case AtReceiptWrite(c, at, replay) =>
      Won(u, s, r) && SnapshotSound(u, s, c) && (!replay ==> c == u.initial)
    case AtCallWrite(c, at, replay) =>
      Won(u, s, r) && SnapshotSound(u, s, c) && (!replay ==> c == u.initial) && (u.hasReceipt ==> s.receipt.Some?)
    case AtExposure(c) =>
      Won(u, s, r) && DeliveredSound(u, s, c) && ExposureRequired(u, Rewritten(u, r)) && (u.hasReceipt ==> s.receipt.Some?)
    case AtExposureAudit(c) =>
      Won(u, s, r) && DeliveredSound(u, s, c) && ExposureRequired(u, Rewritten(u, r)) && (u.hasReceipt ==> s.receipt.Some?)
      && Exposed(u, s)
    case AtRelease(c) =>
      Won(u, s, r) && DeliveredSound(u, s, c) && ExposureRequired(u, Rewritten(u, r)) && (u.hasReceipt ==> s.receipt.Some?)
      && Exposed(u, s) && ContentExposureRecorded in s.audit
    case AtOutcomeAudit(c) => Won(u, s, r) && FinishedSound(u, s, c)
    case AtCallAudit(c) => Won(u, s, r) && FinishedSound(u, s, c)
    case AtAttemptAudit(c) => Won(u, s, r) && FinishedSound(u, s, c)
    case Reported(c) => Won(u, s, r) && FinishedSound(u, s, c)
    case ReportRefused(_) => true
  }

  /** Delivered without withholding. */
  ghost predicate FinishedSound(u: Setup, s: Store, c: CallState) {
    DeliveredSound(u, s, c) && c.withheld == Some(false) && (u.hasReceipt ==> s.receipt.Some?)
  }

  ghost predicate HandlerSound(u: Setup, s: Store, h: Handler) {
    match h
    case Consume(g, c) => c == Dispatched_ ==> s.attempt.state != Reserved && s.attempt.grantId == Some(g)
    case ReportOutcome(g, r, p) => ReportSound(u, s, r, p)
  }

  ghost predicate Sound(u: Setup, w: World) {
    && StoreSound(u, w.store)
    && forall i | 0 <= i < |w.handlers| :: HandlerSound(u, w.store, w.handlers[i])
  }

  // ------------------------------------------------------------ what a step may change

  /**
    The guarantee of every step, whoever takes it: attempts only go forward, a winner stays with
    its outcome, receipts are written once, exposures and audit events are never lost, and the
    call is only ever projected.
   */
  ghost predicate Forward(u: Setup, s: Store, t: Store) {
    && (s.attempt.state != Reserved ==> t.attempt.state != Reserved && t.attempt.grantId == s.attempt.grantId)
    && (s.winner.Some? ==> t.winner == s.winner && t.attempt == s.attempt)
    && (s.receipt.Some? ==> t.receipt == s.receipt)
    && s.scope <= t.scope
    && s.audit <= t.audit
    && (s.call != u.initial ==> t.call != u.initial)
  }

  lemma ForwardKeepsSnapshots(u: Setup, s: Store, t: Store, c: CallState)
    requires Forward(u, s, t) && SnapshotSound(u, s, c)
    ensures SnapshotSound(u, t, c)
  {
  }

  lemma ForwardKeepsHandlers(u: Setup, s: Store, t: Store, h: Handler)
    requires Forward(u, s, t) && HandlerSound(u, s, h)
    ensures HandlerSound(u, t, h)
  {
    if h.ReportOutcome? {
      match h.reporting
      case AtAttempt(c) => ForwardKeepsSnapshots(u, s, t, c);
      case AtReceipt(c, _) => ForwardKeepsSnapshots(u, s, t, c);
      case AtTransition(c, _) => ForwardKeepsSnapshots(u, s, t, c);
      case AtReceiptWrite(c, _, _) => ForwardKeepsSnapshots(u, s, t, c);
      case AtCallWrite(c, _, _) => ForwardKeepsSnapshots(u, s, t, c);
      case AtExposure(c) => ForwardKeepsSnapshots(u, s, t, c);
      case AtExposureAudit(c) => ForwardKeepsSnapshots(u, s, t, c);
      case AtRelease(c) => ForwardKeepsSnapshots(u, s, t, c);
      case AtOutcomeAudit(c) => ForwardKeepsSnapshots(u, s, t, c);
      case AtCallAudit(c) => ForwardKeepsSnapshots(u, s, t, c);
      case AtAttemptAudit(c) => ForwardKeepsSnapshots(u, s, t, c);
      case Reported(c) => ForwardKeepsSnapshots(u, s, t, c);
      case _ =>
    }
  }

  // ------------------------------------------------------------ every step is sound

  /** A step of one request leaves the store sound, itself sound, and everybody else undisturbed. */
  ghost predicate GoodStep(u: Setup, s: Store, t: Store, h: Handler) {
    StoreSound(u, t) && Forward(u, s, t) && HandlerSound(u, t, h)
  }

  lemma NothingWritten(u: Setup, s: Store)
    requires StoreSound(u, s)
    ensures StoreSound(u, s) && Forward(u, s, s)
  {
  }

  /** The reserved attempt bound to an unconsumed grant is dispatched: nobody is disturbed. */
  lemma DispatchIsSound(u: Setup, s: Store, g: string, guard: Option<CI.RevisionGuard>, now: Timestamp)
    requires StoreSound(u, s)
    ensures var (t, refusal) := DispatchAtomically(s, g, guard, now);
            && StoreSound(u, t) && Forward(u, s, t)
            && (refusal.Some? ==> t == s)
            && (refusal.None? ==> t.attempt.state != Reserved && t.attempt.grantId == Some(g))
  {
    var (t, refusal) := DispatchAtomically(s, g, guard, now);
    if refusal.None? {
      assert AttemptSound(u, t) && GrantsSound(t) && CallSound(u, t, t.call) && ReceiptSound(u, t);
      assert ScopeSound(u, t) && AuditSound(u, t);
    } else {
      NothingWritten(u, s);
    }
  }

  lemma ConsumeSteps(u: Setup, s: Store, h: Handler, e: Env)
    requires StoreSound(u, s) && h.Consume? && HandlerSound(u, s, h)
    ensures var (t, k) := StepConsume(u, s, h, e); GoodStep(u, s, t, k)
  {
    NothingWritten(u, s);
    DispatchIsSound(u, s, h.grantId, RevisionGuard(u), e.now);
  }

  /** A request before its step. */
  ghost predicate Ready(u: Setup, s: Store, h: Handler) {
    DispatchedWell(u) && StoreSound(u, s) && h.ReportOutcome? && HandlerSound(u, s, h)
  }

  /** A request that only read: all that is left to show is that it stays sound. */
  lemma OnlyRead(u: Setup, s: Store, h: Handler, p: Reporting)
    requires StoreSound(u, s) && h.ReportOutcome? && ReportSound(u, s, h.report, p)
    ensures GoodStep(u, s, s, h.(reporting := p))
  {
    NothingWritten(u, s);
  }

  lemma GrantRead(u: Setup, s: Store, h: Handler, e: Env)
    requires Ready(u, s, h) && h.reporting.AtGrant?
    ensures var (t, k) := ReadGrant(s, h, e); GoodStep(u, s, t, k)
  {
    assert h.grantId in s.grants && s.grants[h.grantId].Some? ==> s.attempt.state != Reserved;
    OnlyRead(u, s, h, ReadGrant(s, h, e).1.reporting);
  }

  lemma CallRead(u: Setup, s: Store, h: Handler, e: Env)
    requires Ready(u, s, h) && h.reporting.AtCall?
    ensures var (t, k) := ReadCall(s, h, e); GoodStep(u, s, t, k)
  {
    OnlyRead(u, s, h, ReadCall(s, h, e).1.reporting);
  }

  /** An answer that refuses the report asks nothing of the store. */
  lemma Refusing(u: Setup, s: Store, h: Handler, why: Refusal)
    requires StoreSound(u, s) && h.ReportOutcome?
    ensures var (t, k) := Refuse(s, h, why); GoodStep(u, s, t, k)
  {
    OnlyRead(u, s, h, ReportRefused(why));
  }

  /** The attempt that was read fits: what the report goes on with is what it came with. */
  lemma AttemptFits(u: Setup, s: Store, r: Report, call: CallState)
    requires ReportSound(u, s, r, AtAttempt(call)) && Acceptable(u, r)
    ensures ReportSound(u, s, r, AtReceipt(call, s.attempt))
  {
  }

  lemma AttemptRead(u: Setup, s: Store, h: Handler, e: Env)
    requires Ready(u, s, h) && h.reporting.AtAttempt?
    ensures var (t, k) := ReadAttempt(u, s, h, h.reporting.call, e); GoodStep(u, s, t, k)
  {
    var call := h.reporting.call;
    var k := ReadAttempt(u, s, h, call, e).1;
    if k.reporting.ReportRefused? {
      Refusing(u, s, h, k.reporting.why);
    } else {
      AttemptFits(u, s, h.report, call);
      OnlyRead(u, s, h, AtReceipt(call, s.attempt));
    }
  }

  lemma ReceiptRead(u: Setup, s: Store, h: Handler, e: Env)
    requires Ready(u, s, h) && h.reporting.AtReceipt?
    ensures var (t, k) := ReadReceipt(u, s, h, h.reporting.call, h.reporting.seen, e); GoodStep(u, s, t, k)
  {
    OnlyRead(u, s, h, ReadReceipt(u, s, h, h.reporting.call, h.reporting.seen, e).1.reporting);
  }

  /** A dispatched attempt is completed: the store with its first winner. */
  function Completed(u: Setup, s: Store, r: Report, at: Timestamp): Store {
    s.(attempt := s.attempt.(state := TerminalStateOf(r.status), outcome := Some(OutcomeOf(u, r, at))), winner := Some(r))
  }

  lemma FirstReportWins(u: Setup, s: Store, r: Report, at: Timestamp)
    requires StoreSound(u, s) && s.attempt.state == Dispatched && Acceptable(u, r)
    ensures StoreSound(u, Completed(u, s, r, at)) && Forward(u, s, Completed(u, s, r, at))
    ensures Won(u, Completed(u, s, r, at), r)
  {
    var t := Completed(u, s, r, at);
    AlikeMeansSameOutcome(u, r, r, at, "");
    assert AttemptSound(u, t) && GrantsSound(t) && CallSound(u, t, t.call) && ReceiptSound(u, t);
  }

  /** A terminal attempt that says the same: the report goes on as a replay. */
  lemma ReplayGoesOn(u: Setup, s: Store, r: Report, c: CallState, at: Timestamp)
    requires AttemptSound(u, s) && ReportSound(u, s, r, AtTransition(c, at)) && s.winner.Some?
    requires SameAttemptOutcome(s.attempt.outcome.value, OutcomeOf(u, r, at))
    ensures ReportSound(u, s, r, AtReceiptWrite(c, at, true))
  {
    AlikeMeansSameOutcome(u, r, s.winner.value, at, "");
  }

  lemma FirstTransition(u: Setup, s: Store, r: Report, c: CallState, at: Timestamp)
    requires DispatchedWell(u) && StoreSound(u, s) && ReportSound(u, s, r, AtTransition(c, at))
               && s.attempt.state == Dispatched
    ensures var t := Completed(u, s, r, at);
            StoreSound(u, t) && Forward(u, s, t) && ReportSound(u, t, r, AtReceiptWrite(c, at, false))
  {
    FirstReportWins(u, s, r, at);
    ForwardKeepsSnapshots(u, s, Completed(u, s, r, at), c);
  }

  lemma TransitionStep(u: Setup, s: Store, h: Handler, e: Env)
    requires Ready(u, s, h) && h.reporting.AtTransition?
    ensures var (t, k) := CompleteAttempt(u, s, h, h.reporting.call, h.reporting.at, e); GoodStep(u, s, t, k)
  {
    var r, c, at := h.report, h.reporting.call, h.reporting.at;
    var k := CompleteAttempt(u, s, h, c, at, e).1;
    if k.reporting.ReportRefused? {
      Refusing(u, s, h, k.reporting.why);
    } else if s.attempt.state == Dispatched {
      FirstTransition(u, s, r, c, at);
    } else {
      ReplayGoesOn(u, s, r, c, at);
      OnlyRead(u, s, h, AtReceiptWrite(c, at, true));
    }
  }

  lemma ReceiptStep(u: Setup, s: Store, h: Handler, e: Env)
    requires Ready(u, s, h) && h.reporting.AtReceiptWrite?
    ensures var (t, k) := WriteReceipt(u, s, h, h.reporting.call, h.reporting.at, h.reporting.replay, e); GoodStep(u, s, t, k)
  {
    AlikeReportsProjectAlike(u, h.report, s.winner.value, u.initial, h.reporting.at, "");
    if !e.fails && u.hasReceipt {
      var t := RecordReceiptAtomically(s, ReceiptOutcomeOf(u, h.report, h.reporting.at));
      assert ReceiptSound(u, t) && AttemptSound(u, t) && GrantsSound(t) && ScopeSound(u, t);
    }
  }

  /** The terminal call that a winner's equal writes over the dispatched one. */
  lemma WrittenCallIsSound(u: Setup, s: Store, r: Report, at: Timestamp)
    requires DispatchedWell(u) && AttemptSound(u, s) && Won(u, s, r)
    ensures var c := TerminalCallOf(u, u.initial, r, at);
            && CallSound(u, s, c) && ReleaseSound(u, s, c)
            && c.status != Authorized && c != u.initial
            && c.withheld == Some(ExposureRequired(u, Rewritten(u, r)))
  {
    AlikeReportsProjectAlike(u, r, s.winner.value, u.initial, at, "");
  }

  lemma SnapshotIsDelivered(u: Setup, s: Store, r: Report, c: CallState)
    requires DispatchedWell(u) && AttemptSound(u, s) && Won(u, s, r)
    requires SnapshotSound(u, s, c) && c.status != Authorized
    ensures DeliveredSound(u, s, c)
    ensures c.withheld == Some(false) || (c.withheld == Some(true) && ExposureRequired(u, Rewritten(u, r)))
  {
    AlikeReportsProjectAlike(u, r, s.winner.value, u.initial, "", "");
  }

  lemma CallStep(u: Setup, s: Store, h: Handler, e: Env)
    requires Ready(u, s, h) && h.reporting.AtCallWrite?
    ensures var (t, k) := WriteCall(u, s, h, h.reporting.call, h.reporting.at, h.reporting.replay, e); GoodStep(u, s, t, k)
  {
    var r, c, at := h.report, h.reporting.call, h.reporting.at;
    if h.reporting.replay && c.status != Authorized {
      SnapshotIsDelivered(u, s, r, c);
    } else if !e.fails {
      assert c == u.initial;
      WrittenCallIsSound(u, s, r, at);
      var terminal := TerminalCallOf(u, c, r, at);
      var t := s.(call := terminal);
      assert AttemptSound(u, t) && GrantsSound(t) && ReceiptSound(u, t) && ScopeSound(u, t);
      assert SnapshotSound(u, t, terminal);
      assert DeliveredSound(u, t, terminal);
    }
  }

  lemma ExposureStep(u: Setup, s: Store, h: Handler, e: Env)
    requires Ready(u, s, h) && h.reporting.AtExposure?
    ensures var (t, k) := RecordExposure(u, s, h, h.reporting.delivered, e); GoodStep(u, s, t, k)
  {
    AlikeReportsProjectAlike(u, h.report, s.winner.value, u.initial, "", "");
    var k := RecordExposure(u, s, h, h.reporting.delivered, e).1;
    if k.reporting.ReportRefused? {
      Refusing(u, s, h, k.reporting.why);
    } else {
      var t := s.(scope := CE.Record(s.scope, OwnExposure(u, e.now)));
      ScopeGrows(u, s, OwnExposure(u, e.now));
      ForwardKeepsSnapshots(u, s, t, h.reporting.delivered);
    }
  }

  /** One more exposure of the call's scope, the call's own or another's. */
  lemma ScopeGrows(u: Setup, s: Store, x: CE.Exposure)
    requires StoreSound(u, s)
    requires x.sourceToolCallId == u.identity.id ==>
               && CE.SameEvidence(x, OwnExposure(u, ""))
               && s.winner.Some? && ExposureRequired(u, Rewritten(u, s.winner.value))
    ensures var t := s.(scope := CE.Record(s.scope, x));
            && StoreSound(u, t) && Forward(u, s, t)
            && (x.sourceToolCallId == u.identity.id ==> Exposed(u, t))
  {
    RecordKeepsScope(u, s, x);
    var t := s.(scope := CE.Record(s.scope, x));
    assert AttemptSound(u, t) && GrantsSound(t) && CallSound(u, t, t.call) && ReleaseSound(u, t, t.call) && ReceiptSound(u, t);
  }

  lemma RecordKeepsScope(u: Setup, s: Store, x: CE.Exposure)
    requires ScopeSound(u, s)
    requires x.sourceToolCallId == u.identity.id ==>
               && CE.SameEvidence(x, OwnExposure(u, ""))
               && s.winner.Some? && ExposureRequired(u, Rewritten(u, s.winner.value))
    ensures var t := s.(scope := CE.Record(s.scope, x));
            && ScopeSound(u, t) && s.scope <= t.scope
            && (x.sourceToolCallId == u.identity.id ==> Exposed(u, t) && CE.Verdict(s.scope, x) != CE.Conflict)
            && (Exposed(u, s) ==> Exposed(u, t))
  {
    CE.VerdictMeaning(s.scope, x);
    if CE.Verdict(s.scope, x) == CE.Created {
      assert (s.scope + [x])[|s.scope|] == x;
    }
  }

  lemma AppendKeepsOnce(audit: seq<AuditId>, id: AuditId)
    requires OnceEach(audit)
    ensures OnceEach(AppendOnce(audit, id)) && audit <= AppendOnce(audit, id) && id in AppendOnce(audit, id)
  {
  }

  /** Appending an event once keeps the store sound. */
  lemma AuditKeepsStore(u: Setup, s: Store, id: AuditId)
    requires StoreSound(u, s) && s.winner.Some? && !id.OtherEvent?
    requires id == CallExecuted ==> s.winner.value.status == ReportSucceeded
    requires id == CallFailed ==> s.winner.value.status != ReportSucceeded
    requires id == ContentExposureRecorded ==> ExposureRequired(u, Rewritten(u, s.winner.value))
    ensures var t := s.(audit := AppendOnce(s.audit, id));
            StoreSound(u, t) && Forward(u, s, t) && id in t.audit
  {
    AppendKeepsOnce(s.audit, id);
    assert forall x :: x in AppendOnce(s.audit, id) <==> x == id || x in s.audit;
  }

  lemma ExposureAuditStep(u: Setup, s: Store, h: Handler, e: Env)
    requires Ready(u, s, h) && h.reporting.AtExposureAudit?
    ensures var (t, k) := AuditExposure(s, h, h.reporting.delivered, e); GoodStep(u, s, t, k)
  {
    AlikeReportsProjectAlike(u, h.report, s.winner.value, u.initial, "", "");
    AuditKeepsStore(u, s, ContentExposureRecorded);
    ForwardKeepsHandlers(u, s, s.(audit := AppendOnce(s.audit, ContentExposureRecorded)), h);
  }

  lemma ReleaseStep(u: Setup, s: Store, h: Handler, e: Env)
    requires Ready(u, s, h) && h.reporting.AtRelease?
    ensures var (t, k) := ReleaseResult(s, h, h.reporting.delivered, e); GoodStep(u, s, t, k)
  {
    var released := h.reporting.delivered.(withheld := Some(false), updatedAt := e.now);
    var t := s.(call := released);
    assert AttemptSound(u, t) && GrantsSound(t) && ReceiptSound(u, t) && ScopeSound(u, t);
    assert CallSound(u, t, released) && ReleaseSound(u, t, released);
  }

  lemma AuditSteps(u: Setup, s: Store, h: Handler, id: AuditId, next: Reporting, e: Env)
    requires Ready(u, s, h)
    requires (h.reporting.AtOutcomeAudit? && next == AtCallAudit(h.reporting.delivered))
             || (h.reporting.AtCallAudit? && next == AtAttemptAudit(h.reporting.delivered))
             || (h.reporting.AtAttemptAudit? && next == Reported(h.reporting.delivered))
    requires id == OutcomeRecorded || id == CallEvent(h.report) || id == AttemptCompleted
    ensures var (t, k) := AuditBestEffort(s, h, id, next, e); GoodStep(u, s, t, k)
  {
    OnlyRead(u, s, h, next);
    if !e.fails {
      WinnersEventIsSound(u, s, h.report, id);
      ForwardKeepsHandlers(u, s, s.(audit := AppendOnce(s.audit, id)), h.(reporting := next));
    }
  }

  lemma WinnersEventIsSound(u: Setup, s: Store, r: Report, id: AuditId)
    requires StoreSound(u, s) && Won(u, s, r)
    requires id == OutcomeRecorded || id == CallEvent(r) || id == AttemptCompleted
    ensures var t := s.(audit := AppendOnce(s.audit, id)); StoreSound(u, t) && Forward(u, s, t)
  {
    AlikeReportsProjectAlike(u, r, s.winner.value, u.initial, "", "");
    AuditKeepsStore(u, s, id);
  }

  lemma EarlyStepIsGood(u: Setup, s: Store, h: Handler, e: Env)
    requires Ready(u, s, h)
    requires h.reporting.AtGrant? || h.reporting.AtCall? || h.reporting.AtAttempt? || h.reporting.AtReceipt?
             || h.reporting.AtTransition?
    ensures var (t, k) := StepReport(u, s, h, e); GoodStep(u, s, t, k)
  {
    match h.reporting
    case AtGrant => GrantRead(u, s, h, e);
    case AtCall => CallRead(u, s, h, e);
    case AtAttempt(_) => AttemptRead(u, s, h, e);
    case AtReceipt(_, _) => ReceiptRead(u, s, h, e);
    case AtTransition(_, _) => TransitionStep(u, s, h, e);
  }

  lemma WritingStepIsGood(u: Setup, s: Store, h: Handler, e: Env)
    requires Ready(u, s, h)
    requires h.reporting.AtReceiptWrite? || h.reporting.AtCallWrite? || h.reporting.AtExposure?
             || h.reporting.AtExposureAudit? || h.reporting.AtRelease?
    ensures var (t, k) := StepReport(u, s, h, e); GoodStep(u, s, t, k)
  {
    match h.reporting
    case AtReceiptWrite(_, _, _) => ReceiptStep(u, s, h, e);
    case AtCallWrite(_, _, _) => CallStep(u, s, h, e);
    case AtExposure(_) => ExposureStep(u, s, h, e);
    case AtExposureAudit(_) => ExposureAuditStep(u, s, h, e);
    case AtRelease(_) => ReleaseStep(u, s, h, e);
  }

  lemma OutcomeAuditStep(u: Setup, s: Store, h: Handler, e: Env)
    requires Ready(u, s, h) && h.reporting.AtOutcomeAudit?
    ensures var (t, k) := StepReport(u, s, h, e); GoodStep(u, s, t, k)
  {
    AuditSteps(u, s, h, OutcomeRecorded, AtCallAudit(h.reporting.delivered), e);
  }

  lemma CallAuditStep(u: Setup, s: Store, h: Handler, e: Env)
    requires Ready(u, s, h) && h.reporting.AtCallAudit?
    ensures var (t, k) := StepReport(u, s, h, e); GoodStep(u, s, t, k)
  {
    AuditSteps(u, s, h, CallEvent(h.report), AtAttemptAudit(h.reporting.delivered), e);
  }

  lemma AttemptAuditStep(u: Setup, s: Store, h: Handler, e: Env)
    requires Ready(u, s, h) && h.reporting.AtAttemptAudit?
    ensures var (t, k) := StepReport(u, s, h, e); GoodStep(u, s, t, k)
  {
    AuditSteps(u, s, h, AttemptCompleted, Reported(h.reporting.delivered), e);
  }

  lemma EveryStepIsGood(u: Setup, s: Store, h: Handler, e: Env)
    requires DispatchedWell(u) && StoreSound(u, s) && HandlerSound(u, s, h)
    ensures var (t, k) := StepHandler(u, s, h, e); GoodStep(u, s, t, k)
  {
    if h.Consume? {
      ConsumeSteps(u, s, h, e);
    } else if h.reporting.AtGrant? || h.reporting.AtCall? || h.reporting.AtAttempt? || h.reporting.AtReceipt?
              || h.reporting.AtTransition? {
      EarlyStepIsGood(u, s, h, e);
    } else if h.reporting.AtReceiptWrite? || h.reporting.AtCallWrite? || h.reporting.AtExposure?
              || h.reporting.AtExposureAudit? || h.reporting.AtRelease? {
      WritingStepIsGood(u, s, h, e);
    } else if h.reporting.Reported? || h.reporting.ReportRefused? {
      NothingWritten(u, s);
    } else if h.reporting.AtOutcomeAudit? {
      OutcomeAuditStep(u, s, h, e);
    } else if h.reporting.AtCallAudit? {
      CallAuditStep(u, s, h, e);
    } else {
      AttemptAuditStep(u, s, h, e);
    }
  }

  lemma AdvanceIsSound(u: Setup, w: World, i: nat, e: Env)
    requires DispatchedWell(u) && Sound(u, w)
    ensures Sound(u, Next(u, w, Advance(i, e))) && Forward(u, w.store, Next(u, w, Advance(i, e)).store)
  {
    if i < |w.handlers| {
      assert HandlerSound(u, w.store, w.handlers[i]);
      EveryStepIsGood(u, w.store, w.handlers[i], e);
      OthersStaySound(u, w, Next(u, w, Advance(i, e)), i);
    }
  }

  lemma ExposeIsSound(u: Setup, w: World, x: CE.Exposure)
    requires Sound(u, w)
    ensures Sound(u, Next(u, w, Expose(x))) && Forward(u, w.store, Next(u, w, Expose(x)).store)
  {
    if x.sourceToolCallId != u.identity.id {
      ScopeGrows(u, w.store, x);
      OthersStaySound(u, w, w.(store := w.store.(scope := CE.Record(w.store.scope, x))), |w.handlers|);
    } else {
      NothingWritten(u, w.store);
    }
  }

  lemma CreateIsSound(u: Setup, w: World, g: string)
    requires Sound(u, w)
    ensures Sound(u, Next(u, w, CreateGrant(g))) && Forward(u, w.store, Next(u, w, CreateGrant(g)).store)
  {
    OthersStaySound(u, w, Next(u, w, CreateGrant(g)), |w.handlers|);
  }

  lemma BindIsSound(u: Setup, w: World, g: string)
    requires Sound(u, w)
    ensures Sound(u, Next(u, w, BindGrant(g))) && Forward(u, w.store, Next(u, w, BindGrant(g)).store)
  {
    OthersStaySound(u, w, Next(u, w, BindGrant(g)), |w.handlers|);
  }

  lemma ArrivalIsSound(u: Setup, w: World, a: Event)
    requires Sound(u, w) && (a.ArriveConsume? || a.ArriveReport?)
    ensures Sound(u, Next(u, w, a)) && Forward(u, w.store, Next(u, w, a).store)
  {
    NothingWritten(u, w.store);
    OthersStaySound(u, w, Next(u, w, a), |w.handlers|);
  }

  lemma NextIsSound(u: Setup, w: World, a: Event)
    requires DispatchedWell(u) && Sound(u, w)
    ensures Sound(u, Next(u, w, a)) && Forward(u, w.store, Next(u, w, a).store)
  {
    match a
    case CreateGrant(g) => CreateIsSound(u, w, g);
    case BindGrant(g) => BindIsSound(u, w, g);
    case ArriveConsume(_) => ArrivalIsSound(u, w, a);
    case ArriveReport(_, _) => ArrivalIsSound(u, w, a);
    case Advance(i, e) => AdvanceIsSound(u, w, i, e);
    case Expose(x) => ExposeIsSound(u, w, x);
  }

  lemma OthersStaySound(u: Setup, w: World, v: World, moved: nat)
    requires Sound(u, w) && StoreSound(u, v.store) && Forward(u, w.store, v.store)
    requires |v.handlers| >= |w.handlers|
    requires forall i | 0 <= i < |w.handlers| && i != moved :: v.handlers[i] == w.handlers[i]
    requires forall i | 0 <= i < |v.handlers| && (i == moved || i >= |w.handlers|) :: HandlerSound(u, v.store, v.handlers[i])
    ensures Sound(u, v)
  {
    forall i | 0 <= i < |v.handlers| ensures HandlerSound(u, v.store, v.handlers[i]) {
      if i < |w.handlers| && i != moved {
        ForwardKeepsHandlers(u, w.store, v.store, w.handlers[i]);
      }
    }
  }

  /** Every reachable state is sound, whatever requests interleave and wherever they stop. */
  lemma {:induction false} EveryRunIsSound(u: Setup, scope: seq<CE.Exposure>, actions: seq<Event>)
    requires DispatchedWell(u) && FreshScope(u, scope)
    ensures Sound(u, Run(u, scope, actions))
  {
    if actions != [] {
      EveryRunIsSound(u, scope, actions[..|actions| - 1]);
      NextIsSound(u, Run(u, scope, actions[..|actions| - 1]), actions[|actions| - 1]);
    }
  }
}
