/**
  When a released result stays released. The terminal call is written blindly, from the call
  that the report read at its beginning, so a racing reporter of the same outcome can withhold
  again what another one has released. This says exactly when.
 */
module ReleaseStability {
  import opened Basics
  import opened Records
  import opened OutcomeReports
  import opened GrantProtocol
  import opened ProtocolSafety
  import opened ProtocolTheorems
  import CE = ContentExposures

  /** A result that needed its exposure first is visible. */
  predicate Released(u: Setup, s: Store) {
    && s.winner.Some? && ExposureRequired(u, Rewritten(u, s.winner.value))
    && s.call.status != Authorized && s.call.withheld == Some(false)
  }

  /** The report has read the call before anyone projected it, and nothing will refuse it. */
  predicate Threatens(u: Setup, s: Store, h: Handler) {
    && h.ReportOutcome? && s.winner.Some?
    && match h.reporting
       case AtAttempt(c) =>
         c.status == Authorized && s.attempt.grantId == Some(h.grantId)
         && Acceptable(u, h.report) && Alike(u, h.report, s.winner.value)
       case AtReceipt(c, _) => c.status == Authorized && Alike(u, h.report, s.winner.value)
       case AtTransition(c, _) => c.status == Authorized && Alike(u, h.report, s.winner.value)
       case AtReceiptWrite(c, _, _) => c.status == Authorized
       case AtCallWrite(c, _, _) => c.status == Authorized
       case _ => false
  }

  ghost predicate Threatened(u: Setup, w: World) {
    exists i :: 0 <= i < |w.handlers| && Threatens(u, w.store, w.handlers[i])
  }

  // ------------------------------------------------------------ without a threat

  /** What a harmless step leaves: a released result, and a request that is still harmless. */
  ghost predicate Harmless(u: Setup, s: Store, t: Store, k: Handler) {
    && Released(u, t) && t.winner == s.winner && t.attempt == s.attempt
    && !Threatens(u, t, k)
  }

  lemma ReadingIsHarmless(u: Setup, s: Store, h: Handler, e: Env)
    requires h.ReportOutcome? && Released(u, s) && !Threatens(u, s, h)
    requires h.reporting.AtGrant? || h.reporting.AtCall? || h.reporting.AtAttempt? || h.reporting.AtReceipt?
    ensures var (t, k) := StepReport(u, s, h, e); Harmless(u, s, t, k)
  {
  }

  /** A report that differs from the winner's is refused here, and one that is alike goes on with a projected call. */
  lemma ComparingIsHarmless(u: Setup, s: Store, h: Handler, e: Env)
    requires h.ReportOutcome? && AttemptSound(u, s) && Released(u, s) && !Threatens(u, s, h) && h.reporting.AtTransition?
    ensures var (t, k) := CompleteAttempt(u, s, h, h.reporting.call, h.reporting.at, e); Harmless(u, s, t, k)
  {
    var o := OutcomeOf(u, h.report, h.reporting.at);
    assert s.attempt.outcome.Some? && TransitionAtomically(s, h.report, o) == (s, ReplayOrTerminal);
    if SameAttemptOutcome(s.attempt.outcome.value, o) {
      AlikeMeansSameOutcome(u, h.report, s.winner.value, h.reporting.at, "");
      assert Alike(u, h.report, s.winner.value);
    }
  }

  lemma WritingIsHarmless(u: Setup, s: Store, h: Handler, e: Env)
    requires h.ReportOutcome? && Released(u, s) && !Threatens(u, s, h)
    requires h.reporting.AtReceiptWrite? || (h.reporting.AtCallWrite? && h.reporting.replay)
    ensures var (t, k) := StepReport(u, s, h, e); Harmless(u, s, t, k)
  {
  }

  lemma DeliveringIsHarmless(u: Setup, s: Store, h: Handler, e: Env)
    requires h.ReportOutcome? && Released(u, s)
    requires h.reporting.AtExposure? || h.reporting.AtExposureAudit?
    ensures var (t, k) := StepReport(u, s, h, e); Harmless(u, s, t, k)
  {
  }

  lemma ReleasingIsHarmless(u: Setup, s: Store, h: Handler, e: Env)
    requires h.ReportOutcome? && Released(u, s) && h.reporting.AtRelease? && h.reporting.delivered.status != Authorized
    ensures var (t, k) := ReleaseResult(s, h, h.reporting.delivered, e); Harmless(u, s, t, k)
  {
  }

  lemma EndingIsHarmless(u: Setup, s: Store, h: Handler, e: Env)
    requires h.ReportOutcome? && Released(u, s)
    requires h.reporting.AtOutcomeAudit? || h.reporting.AtCallAudit? || h.reporting.AtAttemptAudit?
             || h.reporting.Reported? || h.reporting.ReportRefused?
    ensures var (t, k) := StepReport(u, s, h, e); Harmless(u, s, t, k)
  {
  }

  /** What soundness says of a report here: its first write is of the dispatched call, and what it releases is projected. */
  predicate Projects(p: Reporting) {
    && (p.AtCallWrite? ==> p.replay || p.call.status == Authorized)
    && (p.AtRelease? ==> p.delivered.status != Authorized)
  }

  lemma SoundReportProjects(u: Setup, s: Store, r: Report, p: Reporting)
    requires DispatchedWell(u) && ReportSound(u, s, r, p)
    ensures Projects(p)
  {
  }

  lemma HarmlessReport(u: Setup, s: Store, h: Handler, e: Env)
    requires h.ReportOutcome? && AttemptSound(u, s) && Released(u, s) && !Threatens(u, s, h) && Projects(h.reporting)
    ensures var (t, k) := StepReport(u, s, h, e); Harmless(u, s, t, k)
  {
    var p := h.reporting;
    if p.AtGrant? || p.AtCall? || p.AtAttempt? || p.AtReceipt? {
      ReadingIsHarmless(u, s, h, e);
    } else if p.AtTransition? {
      ComparingIsHarmless(u, s, h, e);
    } else if p.AtReceiptWrite? || p.AtCallWrite? {
      WritingIsHarmless(u, s, h, e);
    } else if p.AtExposure? || p.AtExposureAudit? {
      DeliveringIsHarmless(u, s, h, e);
    } else if p.AtRelease? {
      ReleasingIsHarmless(u, s, h, e);
    } else {
      EndingIsHarmless(u, s, h, e);
    }
  }

  lemma HarmlessConsumption(u: Setup, s: Store, h: Handler, e: Env)
    requires h.Consume? && AttemptSound(u, s) && Released(u, s)
    ensures var (t, k) := StepConsume(u, s, h, e); Harmless(u, s, t, k)
  {
  }

  lemma HarmlessStep(u: Setup, s: Store, h: Handler, e: Env)
    requires DispatchedWell(u) && StoreSound(u, s) && HandlerSound(u, s, h) && Released(u, s) && !Threatens(u, s, h)
    ensures var (t, k) := StepHandler(u, s, h, e); Harmless(u, s, t, k)
  {
    if h.ReportOutcome? {
      SoundReportProjects(u, s, h.report, h.reporting);
      HarmlessReport(u, s, h, e);
    } else {
      HarmlessConsumption(u, s, h, e);
    }
  }

  /** A threat looks at the winner and the attempt only. */
  lemma SameThreats(u: Setup, s: Store, t: Store, h: Handler)
    requires t.winner == s.winner && t.attempt == s.attempt
    ensures Threatens(u, t, h) <==> Threatens(u, s, h)
  {
  }

  lemma UnthreatenedStays(u: Setup, w: World, a: Event)
    requires DispatchedWell(u) && Sound(u, w) && Released(u, w.store) && !Threatened(u, w)
    ensures Released(u, Next(u, w, a).store) && !Threatened(u, Next(u, w, a))
  {
    var v := Next(u, w, a);
    if a.Advance? && a.index < |w.handlers| {
      assert HandlerSound(u, w.store, w.handlers[a.index]);
      HarmlessStep(u, w.store, w.handlers[a.index], a.env);
    }
    forall i | 0 <= i < |v.handlers| ensures !Threatens(u, v.store, v.handlers[i]) {
      if i < |w.handlers| && (!a.Advance? || i != a.index) {
        SameThreats(u, w.store, v.store, w.handlers[i]);
      }
    }
  }

  lemma {:induction false} UnthreatenedForGood(u: Setup, scope: seq<CE.Exposure>, events: seq<Event>, more: seq<Event>)
    requires DispatchedWell(u) && FreshScope(u, scope)
    requires Released(u, Run(u, scope, events).store) && !Threatened(u, Run(u, scope, events))
    ensures Released(u, Run(u, scope, events + more).store) && !Threatened(u, Run(u, scope, events + more))
    decreases |more|
  {
    if more == [] {
      assert events + more == events;
    } else {
      var before := more[..|more| - 1];
      UnthreatenedForGood(u, scope, events, before);
      EveryRunIsSound(u, scope, events + before);
      UnthreatenedStays(u, Run(u, scope, events + before), more[|more| - 1]);
      assert (events + more)[..|events + more| - 1] == events + before;
    }
  }

  // ------------------------------------------------------------ with a threat

  const FINE: Env := Env("", false, true)

  /** One more step of a threatening report: it withholds the result, or threatens on. */
  ghost predicate Nears(u: Setup, s: Store, h: Handler)
    requires h.ReportOutcome?
  {
    var (t, k) := StepReport(u, s, h, FINE);
    if h.reporting.AtCallWrite? then !Released(u, t)
    else Released(u, t) && k.ReportOutcome? && Threatens(u, t, k) && StepsLeft(k.reporting) < StepsLeft(h.reporting)
  }

  lemma ThreatReadsAttempt(u: Setup, s: Store, h: Handler)
    requires Ready(u, s, h) && Released(u, s) && Threatens(u, s, h) && h.reporting.AtAttempt?
    ensures Nears(u, s, h)
  {
  }

  lemma ThreatReadsReceipt(u: Setup, s: Store, h: Handler)
    requires Ready(u, s, h) && Released(u, s) && Threatens(u, s, h) && h.reporting.AtReceipt?
    ensures Nears(u, s, h)
  {
    AlikeReportsProjectAlike(u, h.report, s.winner.value, u.initial, "", "");
  }

  lemma ThreatCompares(u: Setup, s: Store, h: Handler)
    requires Ready(u, s, h) && Released(u, s) && Threatens(u, s, h) && h.reporting.AtTransition?
    ensures Nears(u, s, h)
  {
    AlikeMeansSameOutcome(u, h.report, s.winner.value, h.reporting.at, "");
    assert SameAttemptOutcome(s.attempt.outcome.value, OutcomeOf(u, h.report, h.reporting.at));
  }

  lemma ThreatWritesReceipt(u: Setup, s: Store, h: Handler)
    requires Ready(u, s, h) && Released(u, s) && Threatens(u, s, h) && h.reporting.AtReceiptWrite?
    ensures Nears(u, s, h)
  {
    if u.hasReceipt {
      ReceiptIsAlike(u, s, h.report, h.reporting.at);
    }
  }

  /** The blind write: the snapshot is the call as it was dispatched, so the result is withheld. */
  lemma ThreatWritesCall(u: Setup, s: Store, h: Handler)
    requires Ready(u, s, h) && Released(u, s) && Threatens(u, s, h) && h.reporting.AtCallWrite?
    ensures Nears(u, s, h)
  {
    AlikeReportsProjectAlike(u, h.report, s.winner.value, u.initial, "", "");
  }

  lemma ThreatNears(u: Setup, s: Store, h: Handler)
    requires Ready(u, s, h) && Released(u, s) && Threatens(u, s, h)
    ensures Nears(u, s, h)
  {
    if h.reporting.AtTransition? {
      ThreatCompares(u, s, h);
    } else if h.reporting.AtReceiptWrite? {
      ThreatWritesReceipt(u, s, h);
    } else if h.reporting.AtCallWrite? {
      ThreatWritesCall(u, s, h);
    } else if h.reporting.AtAttempt? {
      ThreatReadsAttempt(u, s, h);
    } else {
      ThreatReadsReceipt(u, s, h);
    }
  }

  predicate ThreatAt(u: Setup, w: World, i: nat) {
    Released(u, w.store) && i < |w.handlers| && Threatens(u, w.store, w.handlers[i])
  }

  /** How far the request has to go. */
  function Left(w: World, i: nat): nat {
    if i < |w.handlers| && w.handlers[i].ReportOutcome? then StepsLeft(w.handlers[i].reporting) else 0
  }

  lemma ThreatAdvances(u: Setup, w: World, i: nat)
    requires DispatchedWell(u) && Sound(u, w) && ThreatAt(u, w, i)
    ensures var v := Next(u, w, Advance(i, FINE));
            !Released(u, v.store) || (ThreatAt(u, v, i) && Left(v, i) < Left(w, i))
  {
    assert HandlerSound(u, w.store, w.handlers[i]);
    ThreatNears(u, w.store, w.handlers[i]);
    NearsInRun(u, w, i);
  }

  lemma NearsInRun(u: Setup, w: World, i: nat)
    requires i < |w.handlers| && w.handlers[i].ReportOutcome? && Nears(u, w.store, w.handlers[i])
    ensures var v := Next(u, w, Advance(i, FINE));
            !Released(u, v.store) || (ThreatAt(u, v, i) && Left(v, i) < Left(w, i))
  {
  }

  /** The run that goes on from `w`. */
  function RunOn(u: Setup, w: World, more: seq<Event>): World
    decreases |more|
  {
    if more == [] then w else Next(u, RunOn(u, w, more[..|more| - 1]), more[|more| - 1])
  }

  lemma {:induction false} RunOnIsRun(u: Setup, scope: seq<CE.Exposure>, events: seq<Event>, more: seq<Event>)
    ensures Run(u, scope, events + more) == RunOn(u, Run(u, scope, events), more)
    decreases |more|
  {
    if more == [] {
      assert events + more == events;
    } else {
      RunOnIsRun(u, scope, events, more[..|more| - 1]);
      assert (events + more)[..|events + more| - 1] == events + more[..|more| - 1];
    }
  }

  lemma {:induction false} RunOnFurther(u: Setup, w: World, a: seq<Event>, b: seq<Event>)
    ensures RunOn(u, w, a + b) == RunOn(u, RunOn(u, w, a), b)
    decreases |b|
  {
    if b == [] {
      assert a + b == a;
    } else {
      RunOnFurther(u, w, a, b[..|b| - 1]);
      assert (a + b)[..|a + b| - 1] == a + b[..|b| - 1];
    }
  }

  lemma OneStepOn(u: Setup, w: World, first: Event, rest: seq<Event>)
    ensures RunOn(u, w, [first] + rest) == RunOn(u, Next(u, w, first), rest)
  {
    RunOnFurther(u, w, [first], rest);
  }

  /** Left to run, a threatening report withholds the result again. */
  lemma {:induction false} ThreatStrikes(u: Setup, w: World, i: nat) returns (more: seq<Event>)
    requires DispatchedWell(u) && Sound(u, w) && ThreatAt(u, w, i)
    ensures !Released(u, RunOn(u, w, more).store)
    decreases Left(w, i)
  {
    var step := Advance(i, FINE);
    ThreatAdvances(u, w, i);
    NextIsSound(u, w, step);
    var rest := [];
    if Released(u, Next(u, w, step).store) {
      rest := ThreatStrikes(u, Next(u, w, step), i);
    }
    OneStepOn(u, w, step, rest);
    more := [step] + rest;
  }

  /**
    A released result stays released, whatever happens, if and only if no report of the same
    outcome is under way that read the call before it was projected.
   */
  lemma StaysReleasedIffUnthreatened(u: Setup, scope: seq<CE.Exposure>, events: seq<Event>)
    requires DispatchedWell(u) && FreshScope(u, scope) && Released(u, Run(u, scope, events).store)
    ensures (forall more: seq<Event> :: Released(u, Run(u, scope, events + more).store))
            <==> !Threatened(u, Run(u, scope, events))
  {
    var w := Run(u, scope, events);
    if Threatened(u, w) {
      var i :| 0 <= i < |w.handlers| && Threatens(u, w.store, w.handlers[i]);
      EveryRunIsSound(u, scope, events);
      var more := ThreatStrikes(u, w, i);
      RunOnIsRun(u, scope, events, more);
      assert !Released(u, Run(u, scope, events + more).store);
    } else {
      forall more: seq<Event> ensures Released(u, Run(u, scope, events + more).store) {
        UnthreatenedForGood(u, scope, events, more);
      }
    }
  }

  // ------------------------------------------------------------ a threat that comes true

  /** A report that has come as far as reading the call. */
  function ReadingOf(u: Setup, grantId: string, r: Report): Handler {
    ReportOutcome(grantId, r, AtAttempt(u.initial))
  }

  /** A report of the dispatched call that can go through. */
  predicate Reportable(u: Setup, s: Store, grantId: string, r: Report) {
    && s.attempt.state == Dispatched && s.attempt.grantId == Some(grantId)
    && Acceptable(u, r) && ExposureRequired(u, r) && ScopeVerified(u)
  }

  lemma ReadsTheCall(u: Setup, w: World, grantId: string, r: Report) returns (more: seq<Event>)
    requires DispatchedWell(u) && Sound(u, w) && Reportable(u, w.store, grantId, r)
    ensures RunOn(u, w, more) == w.(handlers := w.handlers + [ReadingOf(u, grantId, r)])
  {
    assert GrantsSound(w.store) && CallSound(u, w.store, w.store.call);
    var n := |w.handlers|;
    var step := Advance(n, FINE);
    more := [ArriveReport(grantId, r)] + ([step] + ([step] + []));
    OneStepOn(u, w, ArriveReport(grantId, r), [step] + ([step] + []));
    var v := Next(u, w, ArriveReport(grantId, r));
    OneStepOn(u, v, step, [step] + []);
    OneStepOn(u, Next(u, v, step), step, []);
  }

  /** Only request `i` has moved. */
  predicate OthersWait(w: World, v: World, i: nat) {
    && |v.handlers| == |w.handlers|
    && forall j | 0 <= j < |w.handlers| && j != i :: v.handlers[j] == w.handlers[j]
  }

  ghost predicate OnItsWayAt(u: Setup, w: World, i: nat, grantId: string, r: Report) {
    && i < |w.handlers| && OnItsWay(u, w.store, w.handlers[i])
    && w.handlers[i].grantId == grantId && w.handlers[i].report == r
  }

  lemma AdvancesAlone(u: Setup, w: World, i: nat, grantId: string, r: Report)
    requires DispatchedWell(u) && Sound(u, w) && OnItsWayAt(u, w, i, grantId, r) && !Ended(w, i)
    ensures var v := Next(u, w, Advance(i, FINE));
            OnItsWayAt(u, v, i, grantId, r) && Left(v, i) < Left(w, i) && OthersWait(w, v, i)
  {
    StepGoesOn(u, w.store, w.handlers[i], FINE);
    EveryStepIsGood(u, w.store, w.handlers[i], FINE);
  }

  predicate Ended(w: World, i: nat) {
    i < |w.handlers| && w.handlers[i].ReportOutcome? && w.handlers[i].reporting.Reported?
  }

  lemma {:induction false} AloneToTheEnd(u: Setup, w: World, i: nat, grantId: string, r: Report) returns (more: seq<Event>)
    requires DispatchedWell(u) && Sound(u, w) && OnItsWayAt(u, w, i, grantId, r)
    ensures var v := RunOn(u, w, more);
            Sound(u, v) && OnItsWayAt(u, v, i, grantId, r) && Ended(v, i) && OthersWait(w, v, i)
    decreases Left(w, i)
  {
    if Ended(w, i) {
      more := [];
    } else {
      var step := Advance(i, FINE);
      AdvancesAlone(u, w, i, grantId, r);
      NextIsSound(u, w, step);
      var rest := AloneToTheEnd(u, Next(u, w, step), i, grantId, r);
      OneStepOn(u, w, step, rest);
      more := [step] + rest;
    }
  }

  lemma ReportedIsReleased(u: Setup, s: Store, h: Handler)
    requires OnItsWay(u, s, h) && h.reporting.Reported? && ExposureRequired(u, h.report)
    ensures Released(u, s) && Alike(u, h.report, s.winner.value)
  {
    ReportedIsComplete(u, s, h);
    AlikeReportsProjectAlike(u, h.report, s.winner.value, u.initial, "", "");
  }

  /** Two readers of the call: the first one runs to its end, and the second is a threat. */
  lemma FirstReleases(u: Setup, w: World, i: nat, grantId: string, r: Report) returns (alone: seq<Event>)
    requires DispatchedWell(u) && Sound(u, w) && Reportable(u, w.store, grantId, r)
    requires i + 1 < |w.handlers| && w.handlers[i] == ReadingOf(u, grantId, r) == w.handlers[i + 1]
    ensures Sound(u, RunOn(u, w, alone)) && ThreatAt(u, RunOn(u, w, alone), i + 1)
  {
    FirstIsReady(u, w, i, grantId, r);
    alone := AloneToTheEnd(u, w, i, grantId, r);
    var v := RunOn(u, w, alone);
    assert v.handlers[i + 1] == ReadingOf(u, grantId, r);
    ReportedIsReleased(u, v.store, v.handlers[i]);
  }

  /** From a dispatched call on: two readers of the call, then the release. */
  lemma TwoReaders(u: Setup, w: World, grantId: string, r: Report) returns (more: seq<Event>)
    requires DispatchedWell(u) && Sound(u, w) && Reportable(u, w.store, grantId, r)
    ensures var v := RunOn(u, w, more);
            && Sound(u, v) && v.store == w.store && |v.handlers| == |w.handlers| + 2
            && v.handlers[|w.handlers|] == ReadingOf(u, grantId, r) == v.handlers[|w.handlers| + 1]
  {
    var first := ReadsTheCall(u, w, grantId, r);
    var v := RunOn(u, w, first);
    ReadersAreSound(u, w, grantId, r);
    var second := ReadsTheCall(u, v, grantId, r);
    ReadersAreSound(u, v, grantId, r);
    RunOnFurther(u, w, first, second);
    more := first + second;
  }

  lemma ReadersAreSound(u: Setup, w: World, grantId: string, r: Report)
    requires Sound(u, w) && Reportable(u, w.store, grantId, r)
    ensures Sound(u, w.(handlers := w.handlers + [ReadingOf(u, grantId, r)]))
  {
    assert HandlerSound(u, w.store, ReadingOf(u, grantId, r));
  }

  /**
    However a call was dispatched: if the same acceptable report of a result that needs its
    exposure arrives twice, there is an order of steps in which the result is released and later
    withheld again.
   */
  lemma ReleasedCanBeWithheldAgain(u: Setup, scope: seq<CE.Exposure>, events: seq<Event>, grantId: string, r: Report)
    returns (released: seq<Event>, later: seq<Event>)
    requires DispatchedWell(u) && FreshScope(u, scope) && Reportable(u, Run(u, scope, events).store, grantId, r)
    ensures Released(u, Run(u, scope, events + released).store)
    ensures !Released(u, Run(u, scope, events + (released + later)).store)
  {
    EveryRunIsSound(u, scope, events);
    var w := Run(u, scope, events);
    var both := TwoReaders(u, w, grantId, r);
    var alone := FirstReleases(u, RunOn(u, w, both), |w.handlers|, grantId, r);
    RunOnFurther(u, w, both, alone);
    released := both + alone;
    later := ThreatStrikes(u, RunOn(u, w, released), |w.handlers| + 1);
    RunOnFurther(u, w, released, later);
    RunOnIsRun(u, scope, events, released);
    RunOnIsRun(u, scope, events, released + later);
  }

  lemma FirstIsReady(u: Setup, w: World, i: nat, grantId: string, r: Report)
    requires DispatchedWell(u) && Sound(u, w) && Reportable(u, w.store, grantId, r)
    requires i < |w.handlers| && w.handlers[i] == ReadingOf(u, grantId, r)
    ensures OnItsWayAt(u, w, i, grantId, r)
  {
    assert HandlerSound(u, w.store, w.handlers[i]);
    assert CallSound(u, w.store, w.store.call);
  }
}
