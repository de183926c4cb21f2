/**
  The guarantees of outcome reporting: the first report wins, results are shown only after
  their exposure is recorded, and sending the same report again after a crash repairs whatever
  the crash left undone.
 */
module ProtocolTheorems {
  import opened Basics
  import opened Records
  import opened OutcomeReports
  import opened GrantProtocol
  import opened ProtocolSafety
  import CE = ContentExposures
  import CI = ContentInfluence

  // ------------------------------------------------------------ over whole runs

  lemma ForwardIsTransitive(u: Setup, r: Store, s: Store, t: Store)
    requires Forward(u, r, s) && Forward(u, s, t)
    ensures Forward(u, r, t)
  {
  }

  lemma OneMoreEvent(u: Setup, scope: seq<CE.Exposure>, events: seq<Event>, last: Event)
    requires DispatchedWell(u) && FreshScope(u, scope)
    ensures Forward(u, Run(u, scope, events).store, Run(u, scope, events + [last]).store)
  {
    EveryRunIsSound(u, scope, events);
    NextIsSound(u, Run(u, scope, events), last);
    assert (events + [last])[..|events + [last]| - 1] == events;
  }

  lemma {:induction false} RunsGoForward(u: Setup, scope: seq<CE.Exposure>, events: seq<Event>, more: seq<Event>)
    requires DispatchedWell(u) && FreshScope(u, scope)
    ensures Forward(u, Run(u, scope, events).store, Run(u, scope, events + more).store)
    decreases |more|
  {
    if more == [] {
      EveryRunIsSound(u, scope, events);
      assert events + more == events;
      NothingWritten(u, Run(u, scope, events).store);
    } else {
      var before, last := more[..|more| - 1], more[|more| - 1];
      RunsGoForward(u, scope, events, before);
      OneMoreEvent(u, scope, events + before, last);
      assert events + more == events + before + [last];
      ForwardIsTransitive(u, Run(u, scope, events).store, Run(u, scope, events + before).store,
                          Run(u, scope, events + more).store);
    }
  }

  /**
    Along any run an attempt goes from reserved to dispatched to one terminal state. Once it is
    terminal, no later event changes its state, its outcome or its grant.
   */
  lemma AttemptsOnlyGoForward(u: Setup, scope: seq<CE.Exposure>, events: seq<Event>, more: seq<Event>)
    requires DispatchedWell(u) && FreshScope(u, scope)
    ensures var before, after := Run(u, scope, events).store, Run(u, scope, events + more).store;
            && (before.attempt.state == Dispatched ==> after.attempt.state != Reserved)
            && (Terminal(before.attempt.state) ==> after.attempt == before.attempt)
            && (before.receipt.Some? ==> after.receipt == before.receipt)
            && (Terminal(before.attempt.state) <==> before.attempt.outcome.Some?)
            && (Terminal(before.attempt.state) ==> before.attempt.outcome.value.status == before.attempt.state)
  {
    RunsGoForward(u, scope, events, more);
    EveryRunIsSound(u, scope, events);
  }

  /** The attempt is terminal with the outcome that the report asks for. */
  predicate Tells(u: Setup, a: AttemptCell, r: Report) {
    Terminal(a.state) && a.outcome.Some? && SameAttemptOutcome(a.outcome.value, OutcomeOf(u, r, ""))
  }

  /**
    In every reachable state the reports that got past the attempt say what the attempt says.
    A report that says something else is refused at the attempt, even if it read the attempt
    before that was terminal.
   */
  lemma OnlyTheFirstOutcomeIsAccepted(u: Setup, scope: seq<CE.Exposure>, events: seq<Event>, i: nat)
    requires DispatchedWell(u) && FreshScope(u, scope)
    requires i < |Run(u, scope, events).handlers| && Run(u, scope, events).handlers[i].ReportOutcome?
    ensures var w := Run(u, scope, events);
            var h := w.handlers[i];
            && (h.reporting.Reported? ==> Tells(u, w.store.attempt, h.report))
            && (h.reporting.AtTransition? && Terminal(w.store.attempt.state) && !Tells(u, w.store.attempt, h.report) ==>
                  forall e: Env | !e.fails ::
                    StepReport(u, w.store, h, e) == (w.store, h.(reporting := ReportRefused(OutcomeConflict))))
  {
    EveryRunIsSound(u, scope, events);
    var w := Run(u, scope, events);
    var h := w.handlers[i];
    assert HandlerSound(u, w.store, h);
    if h.reporting.Reported? {
      AlikeMeansSameOutcome(u, h.report, w.store.winner.value, "", "");
    }
  }

  /** Each event with a deterministic id is stored at most once, and it tells the recorded outcome. */
  lemma TerminalEventsOnce(u: Setup, scope: seq<CE.Exposure>, events: seq<Event>)
    requires DispatchedWell(u) && FreshScope(u, scope)
    ensures var s := Run(u, scope, events).store;
            && OnceEach(s.audit)
            && (CallExecuted in s.audit ==> s.attempt.state == Succeeded)
            && (CallFailed in s.audit ==> Terminal(s.attempt.state) && s.attempt.state != Succeeded)
  {
    EveryRunIsSound(u, scope, events);
  }

  /**
    In every reachable state, after crashes and among racing reporters: a classified MCP call
    that shows its child result has its exposure recorded in its scope, and audited.
   */
  lemma ExposureBeforeVisibility(u: Setup, scope: seq<CE.Exposure>, events: seq<Event>)
    requires DispatchedWell(u) && FreshScope(u, scope) && ClassifiedMcp(u)
    requires ShowsChildResult(Run(u, scope, events).store.call)
    ensures var s := Run(u, scope, events).store; Exposed(u, s) && ContentExposureRecorded in s.audit
  {
    EveryRunIsSound(u, scope, events);
    var s := Run(u, scope, events).store;
    ChildResultsRequireExposure(u, s.winner.value);
    assert ExposureRequired(u, Rewritten(u, s.winner.value)) <==> ExposureRequired(u, s.winner.value);
    var withheld: bool := s.call.withheld.value;
    assert s.call.withheld == if withheld then Some(true) else Some(false);
  }

  lemma ScopesGrow(u: Setup, scope: seq<CE.Exposure>, events: seq<Event>, more: seq<Event>)
    requires DispatchedWell(u) && FreshScope(u, scope)
    ensures Run(u, scope, events).store.scope <= Run(u, scope, events + more).store.scope
  {
    RunsGoForward(u, scope, events, more);
  }

  /**
    The decision on a call was computed from its scope as it was after `events`, and the call
    carries the evidence of it. Whatever happened since: the consumption is dispatched only if
    the scope is exactly as it was then, so that deciding again would give the same decision,
    and it is refused for its influence exactly when the scope has changed.
   */
  lemma DispatchSeesTheDecisionsScope(
    u: Setup, scope: seq<CE.Exposure>, events: seq<Event>, more: seq<Event>, i: nat, e: Env,
    le: CE.Order, rule: CI.Rule, ordered: seq<CE.Exposure>, evidence: Evidence)
    requires DispatchedWell(u) && FreshScope(u, scope)
    requires u.identity.contentInfluence == Some(evidence) && AuthoritativeScopeId(u.identity, u.envelope).Some?
    requires CI.DecidedAt(HASHES, le, rule, u.identity.influenceScopeId.value, Run(u, scope, events).store.scope, ordered, evidence)
    requires var w := Run(u, scope, events + more);
             i < |w.handlers| && w.handlers[i].Consume? && w.handlers[i].consuming == Dispatching && !e.fails
    ensures var s := Run(u, scope, events + more).store;
            var same := s.scope == Run(u, scope, events).store.scope;
            var answer := StepConsume(u, s, Run(u, scope, events + more).handlers[i], e).1.consuming;
            && (answer == Dispatched_ ==>
                  same && evidence.core.effectiveDecision == CI.DecisionForApproval(CI.Effective(rule, le, s.scope)))
            && (answer == ConsumeRefused(InfluenceChanged) ==> !same)
  {
    ScopesGrow(u, scope, events, more);
    CI.GuardOfDecision(HASHES, le, rule, u.identity.influenceScopeId.value, Run(u, scope, events).store.scope, ordered, evidence);
  }

  // ------------------------------------------------------------ one report by itself

  /** A report that runs alone, as long as the environment lasts. */
  function Drive(u: Setup, s: Store, h: Handler, envs: seq<Env>): (Store, Handler)
    requires h.ReportOutcome?
    decreases |envs|
  {
    if envs == [] then (s, h)
    else
      var (t, k) := StepReport(u, s, h, envs[0]);
      Drive(u, t, k, envs[1..])
  }

  /** The number of steps of a report. */
  const STEPS: nat := 13

  function Submit(u: Setup, s: Store, grantId: string, r: Report, envs: seq<Env>): (Store, Handler) {
    Drive(u, s, ReportOutcome(grantId, r, AtGrant), envs)
  }

  ghost predicate Working(envs: seq<Env>) {
    |envs| >= STEPS && forall i | 0 <= i < |envs| :: !envs[i].fails
  }

  /** Everything the report asks for is stored. */
  ghost predicate Complete(u: Setup, s: Store, r: Report) {
    && Tells(u, s.attempt, r)
    && (u.hasReceipt ==> s.receipt.Some? && SameReceiptOutcome(s.receipt.value, ReceiptOutcomeOf(u, r, "")))
    && SameProjection(s.call, TerminalCallOf(u, u.initial, r, "")) && s.call.withheld == Some(false)
    && (ExposureRequired(u, r) ==> Exposed(u, s))
    && (ContentExposureRecorded in s.audit <==> ExposureRequired(u, r))
    && OutcomeRecorded in s.audit && AttemptCompleted in s.audit
    && (CallExecuted in s.audit <==> r.status == ReportSucceeded)
    && (CallFailed in s.audit <==> r.status != ReportSucceeded)
  }

  /** The number of steps a report has before it. */
  function StepsLeft(p: Reporting): nat {
    match p
    case AtGrant => 13
    case AtCall => 12
    case AtAttempt(_) => 11
    case AtReceipt(_, _) => 10
    case AtTransition(_, _) => 9
    case AtReceiptWrite(_, _, _) => 8
    case AtCallWrite(_, _, _) => 7
    case AtExposure(_) => 6
    case AtExposureAudit(_) => 5
    case AtRelease(_) => 4
    case AtOutcomeAudit(_) => 3
    case AtCallAudit(_) => 2
    case AtAttemptAudit(_) => 1
    case Reported(_) => 0
    case ReportRefused(_) => 0
  }

  /** The call a report carries along is the stored one while nobody else writes it. */
  ghost predicate CarriesStoredCall(s: Store, p: Reporting) {
    match p
    case AtGrant => true
    case AtCall => true
    case AtAttempt(c) => c == s.call
    case AtReceipt(c, _) => c == s.call
    case AtTransition(c, _) => c == s.call
    case AtReceiptWrite(c, _, _) => c == s.call
    case AtCallWrite(c, _, _) => c == s.call
    case AtExposure(c) => c == s.call
    case AtExposureAudit(c) => c == s.call
    case AtRelease(c) => c == s.call
    case AtOutcomeAudit(c) => c == s.call
    case AtCallAudit(c) => c == s.call
    case AtAttemptAudit(c) => c == s.call
    case Reported(c) => c == s.call
    case ReportRefused(_) => false
  }

  /** The events a report has appended so far. */
  ghost predicate EventsSoFar(s: Store, r: Report, p: Reporting) {
    && (p.AtCallAudit? || p.AtAttemptAudit? || p.Reported? ==> OutcomeRecorded in s.audit)
    && (p.AtAttemptAudit? || p.Reported? ==> CallEvent(r) in s.audit)
    && (p.Reported? ==> AttemptCompleted in s.audit)
  }

  /** A report that can go through: its grant was consumed, it is acceptable, and nobody said otherwise before it. */
  ghost predicate Welcome(u: Setup, s: Store, grantId: string, r: Report) {
    && s.attempt.state != Reserved && s.attempt.grantId == Some(grantId)
    && Acceptable(u, r)
    && (s.winner.Some? ==> Alike(u, r, s.winner.value))
    && (ExposureRequired(u, r) ==> ScopeVerified(u))
  }

  /** The part of being on its way that soundness does not give. */
  ghost predicate Going(u: Setup, s: Store, h: Handler) {
    && h.ReportOutcome?
    && Welcome(u, s, h.grantId, h.report)
    && CarriesStoredCall(s, h.reporting)
    && EventsSoFar(s, h.report, h.reporting)
  }

  ghost predicate OnItsWay(u: Setup, s: Store, h: Handler) { Ready(u, s, h) && Going(u, s, h) }

  /** One step nearer to the end. */
  ghost predicate Nearer(u: Setup, t: Store, h: Handler, k: Handler)
    requires h.ReportOutcome?
  {
    && Going(u, t, k) && k.report == h.report && k.grantId == h.grantId
    && StepsLeft(k.reporting) < StepsLeft(h.reporting)
  }

  lemma ReadingGoesOn(u: Setup, s: Store, h: Handler, e: Env)
    requires OnItsWay(u, s, h) && !e.fails
    ensures h.reporting.AtGrant? ==> var (t, k) := ReadGrant(s, h, e); Nearer(u, t, h, k)
    ensures h.reporting.AtCall? ==> var (t, k) := ReadCall(s, h, e); Nearer(u, t, h, k)
    ensures h.reporting.AtAttempt? ==> var (t, k) := ReadAttempt(u, s, h, h.reporting.call, e); Nearer(u, t, h, k)
  {
  }

  lemma ReceiptReadGoesOn(u: Setup, s: Store, h: Handler, e: Env)
    requires OnItsWay(u, s, h) && !e.fails && h.reporting.AtReceipt?
    ensures var (t, k) := ReadReceipt(u, s, h, h.reporting.call, h.reporting.seen, e); Nearer(u, t, h, k)
  {
    if s.winner.Some? {
      AlikeReportsProjectAlike(u, h.report, s.winner.value, u.initial, "", "");
    }
  }

  lemma ReceiptWriteGoesOn(u: Setup, s: Store, h: Handler, e: Env)
    requires OnItsWay(u, s, h) && !e.fails && h.reporting.AtReceiptWrite?
    ensures var (t, k) := WriteReceipt(u, s, h, h.reporting.call, h.reporting.at, h.reporting.replay, e); Nearer(u, t, h, k)
  {
    if u.hasReceipt {
      ReceiptIsAlike(u, s, h.report, h.reporting.at);
    }
  }

  /** What is stored after the write of a winner's equal says the same. */
  lemma ReceiptIsAlike(u: Setup, s: Store, r: Report, at: Timestamp)
    requires ReceiptSound(u, s) && Won(u, s, r)
    ensures var t := RecordReceiptAtomically(s, ReceiptOutcomeOf(u, r, at));
            SameReceiptOutcome(t.receipt.value, ReceiptOutcomeOf(u, r, at))
  {
    AlikeReportsProjectAlike(u, r, s.winner.value, u.initial, at, "");
  }

  lemma TransitionGoesOn(u: Setup, s: Store, h: Handler, e: Env)
    requires AttemptSound(u, s) && Going(u, s, h) && !e.fails && h.reporting.AtTransition?
    ensures var (t, k) := CompleteAttempt(u, s, h, h.reporting.call, h.reporting.at, e); Nearer(u, t, h, k)
  {
    AlikeMeansSameOutcome(u, h.report, if s.winner.Some? then s.winner.value else h.report, h.reporting.at, "");
  }

  lemma CallWriteGoesOn(u: Setup, s: Store, h: Handler, e: Env)
    requires Going(u, s, h) && !e.fails && h.reporting.AtCallWrite?
    ensures var (t, k) := WriteCall(u, s, h, h.reporting.call, h.reporting.at, h.reporting.replay, e); Nearer(u, t, h, k)
  {
  }

  lemma ExposureGoesOn(u: Setup, s: Store, h: Handler, e: Env)
    requires OnItsWay(u, s, h) && !e.fails && h.reporting.AtExposure?
    ensures var (t, k) := RecordExposure(u, s, h, h.reporting.delivered, e); Nearer(u, t, h, k)
  {
    AlikeReportsProjectAlike(u, h.report, s.winner.value, u.initial, "", "");
    RecordKeepsScope(u, s, OwnExposure(u, e.now));
  }

  lemma ExposureAuditGoesOn(u: Setup, s: Store, h: Handler, e: Env)
    requires Going(u, s, h) && !e.fails && h.reporting.AtExposureAudit?
    ensures var (t, k) := AuditExposure(s, h, h.reporting.delivered, e); Nearer(u, t, h, k)
  {
  }

  lemma ReleaseGoesOn(u: Setup, s: Store, h: Handler, e: Env)
    requires Going(u, s, h) && !e.fails && h.reporting.AtRelease?
    ensures var (t, k) := ReleaseResult(s, h, h.reporting.delivered, e); Nearer(u, t, h, k)
  {
  }

  lemma AppendKeepsEvents(audit: seq<AuditId>, id: AuditId)
    ensures id in AppendOnce(audit, id) && forall x | x in audit :: x in AppendOnce(audit, id)
  {
  }

  lemma OutcomeAuditGoesOn(u: Setup, s: Store, h: Handler, e: Env)
    requires Going(u, s, h) && !e.fails && h.reporting.AtOutcomeAudit?
    ensures var (t, k) := AuditBestEffort(s, h, OutcomeRecorded, AtCallAudit(h.reporting.delivered), e); Nearer(u, t, h, k)
  {
    AppendKeepsEvents(s.audit, OutcomeRecorded);
  }

  lemma CallAuditGoesOn(u: Setup, s: Store, h: Handler, e: Env)
    requires Going(u, s, h) && !e.fails && h.reporting.AtCallAudit?
    ensures var (t, k) := AuditBestEffort(s, h, CallEvent(h.report), AtAttemptAudit(h.reporting.delivered), e); Nearer(u, t, h, k)
  {
    AppendKeepsEvents(s.audit, CallEvent(h.report));
  }

  lemma AttemptAuditGoesOn(u: Setup, s: Store, h: Handler, e: Env)
    requires Going(u, s, h) && !e.fails && h.reporting.AtAttemptAudit?
    ensures var (t, k) := AuditBestEffort(s, h, AttemptCompleted, Reported(h.reporting.delivered), e); Nearer(u, t, h, k)
  {
    AppendKeepsEvents(s.audit, AttemptCompleted);
  }

  /** With a working store every step of a welcome report gets it further. */
  lemma StepGoesOn(u: Setup, s: Store, h: Handler, e: Env)
    requires OnItsWay(u, s, h) && !e.fails && !h.reporting.Reported?
    ensures var (t, k) := StepReport(u, s, h, e); Nearer(u, t, h, k)
  {
    match h.reporting
    case AtGrant => ReadingGoesOn(u, s, h, e);
    case AtCall => ReadingGoesOn(u, s, h, e);
    case AtAttempt(_) => ReadingGoesOn(u, s, h, e);
    case AtReceipt(_, _) => ReceiptReadGoesOn(u, s, h, e);
    case AtTransition(_, _) => TransitionGoesOn(u, s, h, e);
    case AtReceiptWrite(_, _, _) => ReceiptWriteGoesOn(u, s, h, e);
    case AtCallWrite(_, _, _) => CallWriteGoesOn(u, s, h, e);
    case AtExposure(_) => ExposureGoesOn(u, s, h, e);
    case AtExposureAudit(_) => ExposureAuditGoesOn(u, s, h, e);
    case AtRelease(_) => ReleaseGoesOn(u, s, h, e);
    case AtOutcomeAudit(_) => OutcomeAuditGoesOn(u, s, h, e);
    case AtCallAudit(_) => CallAuditGoesOn(u, s, h, e);
    case AtAttemptAudit(_) => AttemptAuditGoesOn(u, s, h, e);
  }

  lemma ReportedIsComplete(u: Setup, s: Store, h: Handler)
    requires OnItsWay(u, s, h) && h.reporting.Reported?
    ensures Complete(u, s, h.report)
  {
    AlikeReportsProjectAlike(u, h.report, s.winner.value, u.initial, "", "");
    AlikeMeansSameOutcome(u, h.report, s.winner.value, "", "");
  }

  lemma {:induction false} DriveCompletes(u: Setup, s: Store, h: Handler, envs: seq<Env>)
    requires OnItsWay(u, s, h)
    requires StepsLeft(h.reporting) <= |envs| && forall i | 0 <= i < |envs| :: !envs[i].fails
    ensures var (t, k) := Drive(u, s, h, envs);
            k.ReportOutcome? && k.reporting.Reported? && StoreSound(u, t) && Forward(u, s, t) && Complete(u, t, h.report)
    decreases |envs|
  {
    if envs == [] {
      ReportedIsComplete(u, s, h);
      NothingWritten(u, s);
    } else {
      var e := envs[0];
      var (t, k) := StepReport(u, s, h, e);
      if h.reporting.Reported? {
        DriveCompletes(u, s, h, envs[1..]);
      } else {
        StepGoesOn(u, s, h, e);
        EveryStepIsGood(u, s, h, e);
        DriveCompletes(u, t, k, envs[1..]);
        ForwardIsTransitive(u, s, t, Drive(u, t, k, envs[1..]).0);
      }
    }
  }

  /**
    A welcome report that meets no failure is recorded completely, from whatever sound state it
    starts: right after dispatch, or in the middle of what earlier attempts at it left behind.
   */
  lemma WelcomeReportCompletes(u: Setup, s: Store, grantId: string, r: Report, envs: seq<Env>)
    requires DispatchedWell(u) && StoreSound(u, s) && Welcome(u, s, grantId, r) && Working(envs)
    ensures var (t, h) := Submit(u, s, grantId, r, envs);
            h.ReportOutcome? && h.reporting.Reported? && StoreSound(u, t) && Forward(u, s, t) && Complete(u, t, r)
  {
    DriveCompletes(u, s, ReportOutcome(grantId, r, AtGrant), envs);
  }

  /** Complete states for one report are the same up to the times and the actor written into them. */
  ghost predicate SameUpToTime(u: Setup, s: Store, t: Store) {
    && s.attempt.state == t.attempt.state
    && s.attempt.outcome.Some? && t.attempt.outcome.Some?
    && SameAttemptOutcome(s.attempt.outcome.value, t.attempt.outcome.value)
    && (u.hasReceipt ==>
          s.receipt.Some? && t.receipt.Some? && SameReceiptOutcome(s.receipt.value, t.receipt.value))
    && s.call == t.call.(updatedAt := s.call.updatedAt)
    && (Exposed(u, s) <==> Exposed(u, t))
    && forall id: AuditId | !id.OtherEvent? :: id in s.audit <==> id in t.audit
  }

  /**
    Crash and replay. If the process stopped anywhere after the attempt became terminal, and the
    identical report is sent again, the final state is the one that the report would have
    reached undisturbed from dispatch, up to timestamps.
   */
  lemma ReplayReachesTheCrashFreeState(
    u: Setup, scope: seq<CE.Exposure>, crashed: seq<Event>, undisturbed: seq<Event>,
    grantId: string, r: Report, envs: seq<Env>, envs': seq<Env>)
    requires DispatchedWell(u) && FreshScope(u, scope) && Working(envs) && Working(envs')
    requires ExposureRequired(u, r) ==> ScopeVerified(u)
    requires var s := Run(u, scope, crashed).store;
             s.attempt.grantId == Some(grantId) && s.winner == Some(r)
    requires var s := Run(u, scope, undisturbed).store;
             s.attempt.grantId == Some(grantId) && s.attempt.state == Dispatched
    ensures var (repaired, h) := Submit(u, Run(u, scope, crashed).store, grantId, r, envs);
            var (free, k) := Submit(u, Run(u, scope, undisturbed).store, grantId, r, envs');
            && h.ReportOutcome? && h.reporting.Reported? && k.ReportOutcome? && k.reporting.Reported?
            && Complete(u, repaired, r) && Complete(u, free, r)
            && SameUpToTime(u, repaired, free)
            && OnceEach(repaired.audit)
            && repaired.attempt == Run(u, scope, crashed).store.attempt
  {
    EveryRunIsSound(u, scope, crashed);
    EveryRunIsSound(u, scope, undisturbed);
    var s, s' := Run(u, scope, crashed).store, Run(u, scope, undisturbed).store;
    WelcomeReportCompletes(u, s, grantId, r, envs);
    WelcomeReportCompletes(u, s', grantId, r, envs');
    CompleteStatesAgree(u, Submit(u, s, grantId, r, envs).0, Submit(u, s', grantId, r, envs').0, r);
  }

  lemma CompleteStatesAgree(u: Setup, s: Store, t: Store, r: Report)
    requires StoreSound(u, s) && StoreSound(u, t) && Complete(u, s, r) && Complete(u, t, r)
    ensures SameUpToTime(u, s, t)
  {
  }
}
