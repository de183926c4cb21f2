/**
  The service as it runs: a store whose operations update its fields in place, and the methods
  that read, check and write in sequence. Each is proved to do what the steps of `GrantProtocol`
  do when one request runs by itself; `envs` holds the clock and the failure of each step.
 */
module GrantService {
  import opened Basics
  import opened Records
  import opened OutcomeReports
  import P = GrantProtocol
  import T = ProtocolTheorems
  import CE = ContentExposures
  import CI = ContentInfluence

  /** The memory store's records of one call; `AuthorizationStore` has the store with all of its tables. */
  class CallStore {
    var grants: map<string, Option<Timestamp>>
    var attempt: P.AttemptCell
    var toolCall: CallState
    var receipt: Option<ReceiptOutcome>
    var exposures: seq<CE.Exposure>
    var audit: seq<P.AuditId>
    ghost var winner: Option<Report>

    constructor (u: Setup, scope: seq<CE.Exposure>)
      ensures View() == P.Initial(u, scope)
    {
      grants, attempt := map[], P.AttemptCell(Reserved, None, None);
      toolCall, receipt, exposures, audit, winner := u.initial, None, scope, [], None;
    }

    ghost function View(): P.Store
      reads this
    {
      P.Store(grants, attempt, toolCall, receipt, exposures, audit, winner)
    }

    method CreateExecutionGrant(grantId: string)
      requires grantId !in grants
      modifies this
      ensures View() == old(View()).(grants := old(grants)[grantId := None])
    {
      grants := grants[grantId := None];
    }

    method BindExecutionAttemptGrantAtomically(grantId: string) returns (bound: bool)
      requires grantId in grants
      modifies this
      ensures bound == (old(attempt).state == Reserved && old(attempt).grantId == None)
      ensures View() == if bound then old(View()).(attempt := old(attempt).(grantId := Some(grantId))) else old(View())
    {
      if attempt.state != Reserved || attempt.grantId.Some? {
        return false;
      }
      attempt := attempt.(grantId := Some(grantId));
      return true;
    }

    method ConsumeExecutionGrantAndDispatchAttemptAtomically(grantId: string, guard: Option<CI.RevisionGuard>, now: Timestamp)
      returns (refusal: Option<P.Refusal>)
      modifies this
      ensures (View(), refusal) == P.DispatchAtomically(old(View()), grantId, guard, now)
    {
      if grantId !in grants {
        return Some(P.NotFound);
      }
      if grants[grantId].Some? {
        return Some(P.AlreadyConsumed);
      }
      if attempt.state != Reserved {
        return Some(P.NotDispatched);
      }
      if attempt.grantId != Some(grantId) {
        return Some(P.NotBound);
      }
      if guard.Some? && guard.value.revision != |exposures| {
        return Some(P.InfluenceChanged);
      }
      grants := grants[grantId := Some(now)];
      attempt := attempt.(state := Dispatched);
      return None;
    }

    method TransitionExecutionAttemptAtomically(r: Report, outcome: AttemptOutcome) returns (transition: P.Transition)
      modifies this
      ensures (View(), transition) == P.TransitionAtomically(old(View()), r, outcome)
    {
      if Terminal(attempt.state) {
        return P.ReplayOrTerminal;
      }
      if attempt.state != Dispatched {
        return P.WrongState;
      }
      attempt := attempt.(state := outcome.status, outcome := Some(outcome));
      winner := Some(r);
      return P.Transitioned;
    }

    method RecordActionReceiptOutcomeAtomically(outcome: ReceiptOutcome) returns (stored: ReceiptOutcome)
      modifies this
      ensures View() == P.RecordReceiptAtomically(old(View()), outcome) && receipt == Some(stored)
    {
      if receipt.None? {
        receipt := Some(outcome);
      }
      stored := receipt.value;
    }

    method UpdateToolCall(c: CallState)
      modifies this
      ensures View() == old(View()).(call := c)
    {
      toolCall := c;
    }

    method RecordContentExposure(x: CE.Exposure) returns (outcome: CE.Recorded)
      modifies this
      ensures outcome == CE.Verdict(old(exposures), x)
      ensures View() == old(View()).(scope := CE.Record(old(exposures), x))
    {
      outcome := CE.Verdict(exposures, x);
      if outcome == CE.Created {
        exposures := exposures + [x];
      }
    }

    method AppendAudit(id: P.AuditId)
      modifies this
      ensures View() == old(View()).(audit := P.AppendOnce(old(audit), id))
    {
      if id !in audit {
        audit := audit + [id];
      }
    }
  }

  // ------------------------------------------------------------ steps in sequence

  function Handling(grantId: string, r: Report, p: P.Reporting): P.Handler {
    P.ReportOutcome(grantId, r, p)
  }

  /** One step of a report, and the rest of it. */
  lemma StepOnce(u: Setup, s: P.Store, grantId: string, r: Report, p: P.Reporting, envs: seq<P.Env>, k: nat)
    requires k < |envs|
    ensures var (t, h) := P.StepReport(u, s, Handling(grantId, r, p), envs[k]);
            T.Drive(u, s, Handling(grantId, r, p), envs[k..]) == T.Drive(u, t, h, envs[k + 1..])
  {
    assert envs[k..][1..] == envs[k + 1..] && envs[k..][0] == envs[k];
  }

  lemma {:induction false} EndedStays(u: Setup, s: P.Store, h: P.Handler, envs: seq<P.Env>)
    requires h.ReportOutcome? && (h.reporting.Reported? || h.reporting.ReportRefused?)
    ensures T.Drive(u, s, h, envs) == (s, h)
    decreases |envs|
  {
    if envs != [] {
      EndedStays(u, s, h, envs[1..]);
    }
  }

  /** What is left of a report at a point where it goes on with `p`. */
  ghost function Rest(u: Setup, s: P.Store, grantId: string, r: Report, p: P.Reporting, envs: seq<P.Env>,
      k: nat): (P.Store, P.Handler)
    requires k <= |envs|
  {
    T.Drive(u, s, Handling(grantId, r, p), envs[k..])
  }

  lemma RefusedStays(u: Setup, s: P.Store, grantId: string, r: Report, why: P.Refusal, envs: seq<P.Env>, k: nat)
    requires k <= |envs|
    ensures Rest(u, s, grantId, r, P.ReportRefused(why), envs, k) == (s, Handling(grantId, r, P.ReportRefused(why)))
  {
    EndedStays(u, s, Handling(grantId, r, P.ReportRefused(why)), envs[k..]);
  }

  /** A step that was taken: the rest of the report goes on from where it led. */
  lemma GoesOn(u: Setup, s: P.Store, t: P.Store, grantId: string, r: Report, p: P.Reporting, q: P.Reporting,
               envs: seq<P.Env>, k: nat)
    requires k < |envs|
    requires P.StepReport(u, s, Handling(grantId, r, p), envs[k]) == (t, Handling(grantId, r, q))
    ensures Rest(u, s, grantId, r, p, envs, k) == Rest(u, t, grantId, r, q, envs, k + 1)
    ensures q.ReportRefused? ==> Rest(u, s, grantId, r, p, envs, k) == (t, Handling(grantId, r, q))
  {
    StepOnce(u, s, grantId, r, p, envs, k);
    if q.ReportRefused? {
      RefusedStays(u, t, grantId, r, q.why, envs, k + 1);
    }
  }

  function Or(refusal: Option<P.Refusal>, next: P.Reporting): P.Reporting {
    if refusal.Some? then P.ReportRefused(refusal.value) else next
  }

  class ExecutionGrantService {
    const u: Setup
    const store: CallStore

    constructor (u: Setup, store: CallStore)
      ensures this.u == u && this.store == store
    {
      this.u, this.store := u, store;
    }

    /** `consumeGrant`: the environment stands for the checks on records outside the protocol's state. */
    method ConsumeGrant(grantId: string, envs: seq<P.Env>) returns (refusal: Option<P.Refusal>)
      requires |envs| == 2
      modifies store
      ensures var (s, h) := P.StepConsume(u, old(store.View()), P.Consume(grantId, P.ReadingGrant), envs[0]);
              var (t, k) := P.StepConsume(u, s, h, envs[1]);
              store.View() == t
              && k == P.Consume(grantId, if refusal.Some? then P.ConsumeRefused(refusal.value) else P.Dispatched_)
    {
      if envs[0].fails {
        return Some(P.StoreFailed);
      }
      if grantId !in store.grants {
        return Some(P.NotFound);
      }
      if store.grants[grantId].Some? {
        return Some(P.AlreadyConsumed);
      }
      if store.attempt.state != Reserved || store.attempt.grantId != Some(grantId) {
        return Some(P.NotBound);
      }
      if !envs[0].checksPass || !McpEvidenceConsistent(u.identity, u.envelope) || !P.CallCurrent(u, store.toolCall, false) {
        return Some(P.NotCurrent);
      }
      if envs[1].fails {
        return Some(P.StoreFailed);
      }
      refusal := store.ConsumeExecutionGrantAndDispatchAttemptAtomically(grantId, P.RevisionGuard(u), envs[1].now);
    }

    /** The reads and checks of `reportOutcome` before its first write. */
    method ReadAndCheck(grantId: string, r: Report, envs: seq<P.Env>)
      returns (refusal: Option<P.Refusal>, call: CallState, at: Timestamp)
      requires |envs| == T.STEPS
      ensures var all := Rest(u, store.View(), grantId, r, P.AtGrant, envs, 0);
              if refusal.Some? then all == (store.View(), Handling(grantId, r, P.ReportRefused(refusal.value)))
              else all == Rest(u, store.View(), grantId, r, P.AtTransition(call, at), envs, 4)
    {
      ghost var s := store.View();
      call, at := store.toolCall, envs[3].now;
      refusal := CheckGrant(grantId, r, envs[0]);
      StepOnce(u, s, grantId, r, P.AtGrant, envs, 0);
      if refusal.Some? {
        RefusedStays(u, s, grantId, r, refusal.value, envs, 1);
        return;
      }
      StepOnce(u, s, grantId, r, P.AtCall, envs, 1);
      if envs[1].fails {
        refusal := Some(P.StoreFailed);
        RefusedStays(u, s, grantId, r, refusal.value, envs, 2);
        return;
      }
      StepOnce(u, s, grantId, r, P.AtAttempt(call), envs, 2);
      refusal := CheckAttempt(grantId, r, call, envs[2]);
      if refusal.Some? {
        RefusedStays(u, s, grantId, r, refusal.value, envs, 3);
        return;
      }
      StepOnce(u, s, grantId, r, P.AtReceipt(call, store.attempt), envs, 3);
      refusal, at := CheckReceipt(grantId, r, call, store.attempt, envs[3]);
      if refusal.Some? {
        RefusedStays(u, s, grantId, r, refusal.value, envs, 4);
      }
    }

    /** The first look at the receipt, and the time to record: that of a recorded outcome, or now. */
    method CheckReceipt(grantId: string, r: Report, call: CallState, seen: P.AttemptCell, e: P.Env)
      returns (refusal: Option<P.Refusal>, at: Timestamp)
      ensures P.ReadReceipt(u, store.View(), Handling(grantId, r, P.AtReceipt(call, seen)), call, seen, e)
        == (store.View(), Handling(grantId, r,
              if refusal.Some? then P.ReportRefused(refusal.value) else P.AtTransition(call, at)))
    {
      at := if seen.outcome.Some? then seen.outcome.value.recordedAt else e.now;
      if e.fails {
        return Some(P.StoreFailed), at;
      }
      if u.hasReceipt && store.receipt.Some? && !SameReceiptOutcome(store.receipt.value, ReceiptOutcomeOf(u, r, "")) {
        return Some(P.OutcomeConflict), at;
      }
      return None, at;
    }

    method CheckGrant(grantId: string, ghost r: Report, e: P.Env) returns (refusal: Option<P.Refusal>)
      ensures P.ReadGrant(store.View(), Handling(grantId, r, P.AtGrant), e)
        == (store.View(), Handling(grantId, r, if refusal.Some? then P.ReportRefused(refusal.value) else P.AtCall))
    {
      if e.fails {
        return Some(P.StoreFailed);
      }
      if grantId !in store.grants {
        return Some(P.NotFound);
      }
      if store.grants[grantId].None? {
        return Some(P.NotConsumed);
      }
      return None;
    }

    method CheckAttempt(grantId: string, r: Report, call: CallState, e: P.Env) returns (refusal: Option<P.Refusal>)
      ensures P.ReadAttempt(u, store.View(), Handling(grantId, r, P.AtAttempt(call)), call, e)
        == (store.View(), Handling(grantId, r,
              if refusal.Some? then P.ReportRefused(refusal.value) else P.AtReceipt(call, store.attempt)))
    {
      if e.fails {
        return Some(P.StoreFailed);
      }
      if store.attempt.grantId != Some(grantId) {
        return Some(P.NotBound);
      }
      if !P.CallCurrent(u, call, store.attempt.state != Dispatched) {
        return Some(P.NotCurrent);
      }
      if !Acceptable(u, r) {
        return Some(P.Unacceptable);
      }
      return None;
    }

    /** The attempt's compare-and-swap, with the comparison of a terminal attempt. */
    method CompleteAttempt(grantId: string, r: Report, call: CallState, at: Timestamp, e: P.Env)
      returns (refusal: Option<P.Refusal>, replay: bool)
      modifies store
      ensures P.CompleteAttempt(u, old(store.View()), Handling(grantId, r, P.AtTransition(call, at)), call, at, e)
        == (store.View(), Handling(grantId, r,
              if refusal.Some? then P.ReportRefused(refusal.value) else P.AtReceiptWrite(call, at, replay)))
    {
      refusal, replay := None, false;
      if e.fails {
        return Some(P.StoreFailed), false;
      }
      var outcome := OutcomeOf(u, r, at);
      var transition := store.TransitionExecutionAttemptAtomically(r, outcome);
      match transition {
        case WrongState =>
          return Some(P.NotDispatched), false;
        case ReplayOrTerminal =>
          if store.attempt.outcome.None? || !SameAttemptOutcome(store.attempt.outcome.value, outcome) {
            return Some(P.OutcomeConflict), false;
          }
          replay := true;
        case Transitioned =>
      }
    }

    /** The receipt's first outcome stays; a different one is a conflict. */
    method WriteReceipt(grantId: string, r: Report, call: CallState, at: Timestamp, replay: bool, e: P.Env)
      returns (refusal: Option<P.Refusal>)
      modifies store
      ensures P.WriteReceipt(u, old(store.View()), Handling(grantId, r, P.AtReceiptWrite(call, at, replay)), call, at, replay, e)
        == (store.View(), Handling(grantId, r,
              if refusal.Some? then P.ReportRefused(refusal.value) else P.AtCallWrite(call, at, replay)))
    {
      if e.fails {
        return Some(P.StoreFailed);
      }
      if u.hasReceipt {
        var candidate := ReceiptOutcomeOf(u, r, at);
        var stored := store.RecordActionReceiptOutcomeAtomically(candidate);
        if !SameReceiptOutcome(stored, candidate) {
          return Some(P.OutcomeConflict);
        }
      }
      return None;
    }

    /** The blind write of the terminal call, unless a replay finds it written. */
    method WriteCall(grantId: string, r: Report, call: CallState, at: Timestamp, replay: bool, e: P.Env)
      returns (refusal: Option<P.Refusal>, delivered: CallState)
      modifies store
      ensures P.WriteCall(u, old(store.View()), Handling(grantId, r, P.AtCallWrite(call, at, replay)), call, at, replay, e)
        == (store.View(), Handling(grantId, r,
              if refusal.Some? then P.ReportRefused(refusal.value) else P.AfterCallWrite(u, r, delivered)))
    {
      delivered := call;
      var terminalToolCallAlreadyPersisted := replay && call.status != Authorized;
      if !terminalToolCallAlreadyPersisted {
        if e.fails {
          return Some(P.StoreFailed), delivered;
        }
        delivered := TerminalCallOf(u, call, r, at);
        store.UpdateToolCall(delivered);
      }
      return None, delivered;
    }

    /** The three writes that make an outcome durable: attempt, receipt, call. */
    method RecordOutcome(grantId: string, r: Report, call: CallState, at: Timestamp, envs: seq<P.Env>)
      returns (refusal: Option<P.Refusal>, delivered: CallState)
      requires |envs| == T.STEPS
      modifies store
      ensures var all := Rest(u, old(store.View()), grantId, r, P.AtTransition(call, at), envs, 4);
              if refusal.Some? then all == (store.View(), Handling(grantId, r, P.ReportRefused(refusal.value)))
              else all == Rest(u, store.View(), grantId, r, P.AfterCallWrite(u, r, delivered), envs, 7)
    {
      delivered := call;
      ghost var s0 := store.View();
      var replay;
      refusal, replay := CompleteAttempt(grantId, r, call, at, envs[4]);
      ghost var s1 := store.View();
      GoesOn(u, s0, s1, grantId, r, P.AtTransition(call, at), Or(refusal, P.AtReceiptWrite(call, at, replay)), envs, 4);
      if refusal.Some? {
        return;
      }
      refusal := WriteReceipt(grantId, r, call, at, replay, envs[5]);
      ghost var s2 := store.View();
      GoesOn(u, s1, s2, grantId, r, P.AtReceiptWrite(call, at, replay), Or(refusal, P.AtCallWrite(call, at,
             replay)), envs, 5);
      if refusal.Some? {
        return;
      }
      refusal, delivered := WriteCall(grantId, r, call, at, replay, envs[6]);
      GoesOn(u, s2, store.View(), grantId, r, P.AtCallWrite(call, at, replay),
             Or(refusal, P.AfterCallWrite(u, r, delivered)), envs, 6);
    }

    /** `recordContentExposureBeforeDelivery`: the exposure and its audit event. */
    method ExposeBeforeDelivery(grantId: string, r: Report, delivered: CallState, envs: seq<P.Env>) returns (refused: bool)
      requires |envs| == T.STEPS
      modifies store
      ensures var all := Rest(u, old(store.View()), grantId, r, P.AtExposure(delivered), envs, 7);
              if refused then all == (store.View(), Handling(grantId, r, P.ReportRefused(P.Withheld)))
              else all == Rest(u, store.View(), grantId, r, P.AtRelease(delivered), envs, 9)
    {
      StepOnce(u, store.View(), grantId, r, P.AtExposure(delivered), envs, 7);
      var recorded := CE.Conflict;
      if !envs[7].fails && ScopeVerified(u) {
        recorded := store.RecordContentExposure(P.OwnExposure(u, envs[7].now));
      }
      if recorded == CE.Conflict {
        assert store.View() == old(store.View());
        RefusedStays(u, store.View(), grantId, r, P.Withheld, envs, 8);
        return true;
      }
      StepOnce(u, store.View(), grantId, r, P.AtExposureAudit(delivered), envs, 8);
      if envs[8].fails {
        RefusedStays(u, store.View(), grantId, r, P.Withheld, envs, 9);
        return true;
      }
      store.AppendAudit(P.ContentExposureRecorded);
      return false;
    }

    /** Exposure and audit event, then the write that releases the result. */
    method ExposeAndRelease(grantId: string, r: Report, delivered: CallState, envs: seq<P.Env>)
      returns (refusal: Option<P.Refusal>, released: CallState)
      requires |envs| == T.STEPS
      modifies store
      ensures var all := Rest(u, old(store.View()), grantId, r, P.AtExposure(delivered), envs, 7);
              if refusal.Some? then all == (store.View(), Handling(grantId, r, P.ReportRefused(refusal.value)))
              else all == Rest(u, store.View(), grantId, r, P.AtOutcomeAudit(released), envs, 10)
    {
      released := delivered;
      var refused := ExposeBeforeDelivery(grantId, r, delivered, envs);
      if refused {
        return Some(P.Withheld), released;
      }
      StepOnce(u, store.View(), grantId, r, P.AtRelease(delivered), envs, 9);
      if envs[9].fails {
        RefusedStays(u, store.View(), grantId, r, P.Withheld, envs, 10);
        return Some(P.Withheld), released;
      }
      released := delivered.(withheld := Some(false), updatedAt := envs[9].now);
      store.UpdateToolCall(released);
      return None, released;
    }

    method AppendAuditBestEffort(id: P.AuditId, e: P.Env)
      modifies store
      ensures store.View() == if e.fails then old(store.View()) else old(store.View()).(audit := P.AppendOnce(old(store.audit), id))
    {
      if !e.fails {
        store.AppendAudit(id);
      }
    }

    /** The three terminal events; none of them can fail the report. */
    method AuditOutcome(grantId: string, r: Report, delivered: CallState, envs: seq<P.Env>, k: nat)
      requires k + 3 <= |envs|
      modifies store
      ensures Rest(u, old(store.View()), grantId, r, P.AtOutcomeAudit(delivered), envs, k)
        == (store.View(), Handling(grantId, r, P.Reported(delivered)))
    {
      StepOnce(u, store.View(), grantId, r, P.AtOutcomeAudit(delivered), envs, k);
      AppendAuditBestEffort(P.OutcomeRecorded, envs[k]);
      StepOnce(u, store.View(), grantId, r, P.AtCallAudit(delivered), envs, k + 1);
      AppendAuditBestEffort(P.CallEvent(r), envs[k + 1]);
      StepOnce(u, store.View(), grantId, r, P.AtAttemptAudit(delivered), envs, k + 2);
      AppendAuditBestEffort(P.AttemptCompleted, envs[k + 2]);
      EndedStays(u, store.View(), Handling(grantId, r, P.Reported(delivered)), envs[k + 3..]);
    }

    /** `reportOutcome`. */
    method ReportOutcome(grantId: string, r: Report, envs: seq<P.Env>) returns (answer: P.Reporting)
      requires |envs| == T.STEPS
      modifies store
      ensures (store.View(), Handling(grantId, r, answer)) == T.Submit(u, old(store.View()), grantId, r, envs)
    {
      assert envs[0..] == envs;
      var refusal, call, at := ReadAndCheck(grantId, r, envs);
      if refusal.Some? {
        return P.ReportRefused(refusal.value);
      }
      var delivered;
      refusal, delivered := RecordOutcome(grantId, r, call, at, envs);
      if refusal.Some? {
        return P.ReportRefused(refusal.value);
      }
      if !(ExposureRequired(u, Rewritten(u, r)) && delivered.withheld != Some(false)) {
        AuditOutcome(grantId, r, delivered, envs, 7);
        return P.Reported(delivered);
      }
      var released;
      refusal, released := ExposeAndRelease(grantId, r, delivered, envs);
      if refusal.Some? {
        return P.ReportRefused(refusal.value);
      }
      AuditOutcome(grantId, r, released, envs, 10);
      return P.Reported(released);
    }
  }
}
