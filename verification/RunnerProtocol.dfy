/**
  Runners and the server together: any number of MCP wrappers and SDK runners consume grants
  and report outcomes over a network that delays, reorders and loses requests and replies, and
  the downstream calls they make in between.

  A message is delivered at most once: neither runner retries a consumption or a report.
 */
module RunnerProtocol {
  import opened Basics
  import opened Records
  import opened OutcomeReports
  import opened GrantProtocol
  import opened ProtocolSafety
  import CE = ContentExposures

  datatype Kind = Wrapper | Sdk

  /**
    Where a runner stands. From `Aborted` on it holds the message of the consumption it won;
    `Calling`, `Returned` and `Broken` are the runners that called downstream.
   */
  datatype Phase =
    | Idle
    | AwaitingConsume(msg: nat)
    | Stopped
    | GaveUp
    | Aborted(msg: nat)
    | Calling(msg: nat)
    | Returned(msg: nat)
    | Broken(msg: nat)

  datatype Runner = Runner(kind: Kind, grantId: string, phase: Phase)

  datatype Body = ConsumeRequest | ReportRequest(report: Report)

  /** `arrived` is the request the message became on the server. */
  datatype Message = Message(from: nat, grantId: string, body: Body, arrived: Option<nat>)

  /** `calls` are the downstream calls so far, by runner. */
  datatype Fleet = Fleet(server: World, runners: seq<Runner>, net: seq<Message>, calls: seq<nat>)

  /** Anything that may happen next. */
  datatype Happening =
    | Grants(event: Event)
    | Launch(kind: Kind, grantId: string)
    | SendConsume(runner: nat)
    | Deliver(msg: nat)
    | ConsumeAnswered(runner: nat, aborted: bool, report: Report)
    | ConsumeUnanswered(runner: nat, report: Report, reports: bool)
    | CallReturns(runner: nat, report: Report)
    | CallBreaks(runner: nat, report: Report)

  predicate ServerEvent(e: Event) { e.CreateGrant? || e.BindGrant? || e.Advance? || e.Expose? }

  function Enter(f: Fleet, i: nat, p: Phase): Fleet
    requires i < |f.runners|
  {
    f.(runners := f.runners[i := f.runners[i].(phase := p)])
  }

  function Post(f: Fleet, i: nat, body: Body): Fleet
    requires i < |f.runners|
  {
    f.(net := f.net + [Message(i, f.runners[i].grantId, body, None)])
  }

  function RequestOf(m: Message): Event {
    match m.body
    case ConsumeRequest => ArriveConsume(m.grantId)
    case ReportRequest(report) => ArriveReport(m.grantId, report)
  }

  /** The status a runner reports for a call that came back: an MCP result can be an error result. */
  predicate ReportsReturn(k: Kind, s: ReportStatus) {
    s == ReportSucceeded || (k == Wrapper && s == ReportFailed)
  }

  /** For a call that did not come back; only the wrapper tells a timeout apart. */
  predicate ReportsBreak(k: Kind, s: ReportStatus) {
    s == ReportUnknown || (k == Wrapper && s == ReportTimedOut)
  }

  /** The server's answer to the consumption that arrived as request `h`. */
  predicate Answered(w: World, h: nat, won: bool) {
    h < |w.handlers| && w.handlers[h].Consume?
    && if won then w.handlers[h].consuming == Dispatched_ else w.handlers[h].consuming.ConsumeRefused?
  }

  function Happens(u: Setup, f: Fleet, e: Happening): Fleet {
    match e
    case Grants(event) => if ServerEvent(event) then f.(server := Next(u, f.server, event)) else f
    case Launch(k, g) => f.(runners := f.runners + [Runner(k, g, Idle)])
    case SendConsume(i) =>
      if i >= |f.runners| || f.runners[i].phase != Idle then f
      else Post(Enter(f, i, AwaitingConsume(|f.net|)), i, ConsumeRequest)
    case Deliver(m) =>
      if m >= |f.net| || f.net[m].arrived.Some? then f
      else
        f.(server := Next(u, f.server, RequestOf(f.net[m])),
           net := f.net[m := f.net[m].(arrived := Some(|f.server.handlers|))])
    case ConsumeAnswered(i, aborted, report) =>
      if i >= |f.runners| || !f.runners[i].phase.AwaitingConsume? then f
      else
        var m := f.runners[i].phase.msg;
        if m >= |f.net| || f.net[m].arrived.None? then f
        else if Answered(f.server, f.net[m].arrived.value, false) then Enter(f, i, Stopped)
        else if !Answered(f.server, f.net[m].arrived.value, true) then f
        else if aborted && f.runners[i].kind == Wrapper then
          if report.status != ReportCancelled then f else Post(Enter(f, i, Aborted(m)), i, ReportRequest(report))
        else Enter(f, i, Calling(m)).(calls := f.calls + [i])
    case ConsumeUnanswered(i, report, reports) =>
      if i >= |f.runners| || !f.runners[i].phase.AwaitingConsume? then f
      else if !reports || f.runners[i].kind == Sdk then Enter(f, i, Stopped)
      else if report.status != ReportTimedOut && report.status != ReportUnknown then f
      else Post(Enter(f, i, GaveUp), i, ReportRequest(report))
    case CallReturns(i, report) =>
      if i >= |f.runners| || !f.runners[i].phase.Calling? || !ReportsReturn(f.runners[i].kind, report.status) then f
      else Post(Enter(f, i, Returned(f.runners[i].phase.msg)), i, ReportRequest(report))
    case CallBreaks(i, report) =>
      if i >= |f.runners| || !f.runners[i].phase.Calling? || !ReportsBreak(f.runners[i].kind, report.status) then f
      else Post(Enter(f, i, Broken(f.runners[i].phase.msg)), i, ReportRequest(report))
  }

  function RunFleet(u: Setup, scope: seq<CE.Exposure>, history: seq<Happening>): Fleet {
    if history == [] then Fleet(World(Initial(u, scope), []), [], [], [])
    else Happens(u, RunFleet(u, scope, history[..|history| - 1]), history[|history| - 1])
  }

  // ------------------------------------------------------------ the server's part

  ghost predicate OneDispatch(hs: seq<Handler>) {
    forall i, j | 0 <= i < j < |hs| :: !(IsDispatched(hs[i]) && IsDispatched(hs[j]))
  }

  predicate IsDispatched(h: Handler) { h.Consume? && h.consuming == Dispatched_ }

  /** The winning report is one that arrived. */
  ghost predicate WinnerArrived(w: World) {
    w.store.winner.Some? ==>
      exists h :: 0 <= h < |w.handlers| && w.handlers[h].ReportOutcome? && w.handlers[h].report == w.store.winner.value
  }

  /** A request keeps its content, and an answer that was given stays. */
  predicate SameRequest(a: Handler, b: Handler) {
    && a.Consume? == b.Consume? && a.grantId == b.grantId
    && (a.ReportOutcome? ==> b.report == a.report)
    && (a.Consume? && (a.consuming == Dispatched_ || a.consuming.ConsumeRefused?) ==> b.consuming == a.consuming)
  }

  lemma StepKeepsRequest(u: Setup, s: Store, h: Handler, e: Env)
    ensures var (t, k) := StepHandler(u, s, h, e);
            && SameRequest(h, k)
            && (IsDispatched(k) && !IsDispatched(h) ==> s.attempt.state == Reserved)
            && (t.winner != s.winner ==> h.ReportOutcome? && t.winner == Some(h.report))
  {
  }

  lemma AdvanceKeepsOneDispatch(u: Setup, w: World, i: nat, e: Env)
    requires Sound(u, w) && OneDispatch(w.handlers) && i < |w.handlers|
    ensures OneDispatch(Next(u, w, Advance(i, e)).handlers)
  {
    var v := Next(u, w, Advance(i, e));
    StepKeepsRequest(u, w.store, w.handlers[i], e);
    forall j | 0 <= j < |w.handlers| && j != i && IsDispatched(v.handlers[i]) ensures !IsDispatched(v.handlers[j]) {
      assert v.handlers[j] == w.handlers[j];
      assert HandlerSound(u, w.store, w.handlers[j]);
    }
  }

  lemma AdvanceKeepsWinner(u: Setup, w: World, i: nat, e: Env)
    requires WinnerArrived(w) && i < |w.handlers|
    ensures WinnerArrived(Next(u, w, Advance(i, e)))
  {
    var v := Next(u, w, Advance(i, e));
    StepKeepsRequest(u, w.store, w.handlers[i], e);
    if v.store.winner != w.store.winner {
      assert v.handlers[i].ReportOutcome? && v.handlers[i].report == v.store.winner.value;
    } else if w.store.winner.Some? {
      var h :| 0 <= h < |w.handlers| && w.handlers[h].ReportOutcome? && w.handlers[h].report == w.store.winner.value;
      assert SameRequest(w.handlers[h], v.handlers[h]);
    }
  }

  /** The requests that were there are there still, and the ones that were answered keep their answer. */
  ghost predicate SameRequests(w: World, v: World) {
    |v.handlers| >= |w.handlers| && forall i | 0 <= i < |w.handlers| :: SameRequest(w.handlers[i], v.handlers[i])
  }

  lemma QuietKeepsWinner(w: World, v: World)
    requires WinnerArrived(w) && v.store.winner == w.store.winner && SameRequests(w, v)
    ensures WinnerArrived(v)
  {
    if w.store.winner.Some? {
      var h :| 0 <= h < |w.handlers| && w.handlers[h].ReportOutcome? && w.handlers[h].report == w.store.winner.value;
      assert SameRequest(w.handlers[h], v.handlers[h]);
    }
  }

  lemma AdvanceKeepsRequests(u: Setup, w: World, i: nat, e: Env)
    requires i < |w.handlers|
    ensures SameRequests(w, Next(u, w, Advance(i, e)))
  {
    StepKeepsRequest(u, w.store, w.handlers[i], e);
  }

  lemma ServerStep(u: Setup, w: World, e: Event)
    requires DispatchedWell(u) && Sound(u, w) && OneDispatch(w.handlers) && WinnerArrived(w)
    ensures var v := Next(u, w, e);
            && Sound(u, v) && OneDispatch(v.handlers) && WinnerArrived(v) && SameRequests(w, v)
  {
    NextIsSound(u, w, e);
    if e.Advance? && e.index < |w.handlers| {
      AdvanceKeepsOneDispatch(u, w, e.index, e.env);
      AdvanceKeepsWinner(u, w, e.index, e.env);
      AdvanceKeepsRequests(u, w, e.index, e.env);
    } else {
      QuietKeepsWinner(w, Next(u, w, e));
    }
  }

  // ------------------------------------------------------------ invariants

  /** The request on the server is the message that was sent. */
  predicate Carries(h: Handler, m: Message) {
    && h.grantId == m.grantId
    && match m.body
       case ConsumeRequest => h.Consume?
       case ReportRequest(r) => h.ReportOutcome? && h.report == r
  }

  ghost predicate NetSound(f: Fleet) {
    && (forall m | 0 <= m < |f.net| && f.net[m].arrived.Some? ::
          f.net[m].arrived.value < |f.server.handlers| && Carries(f.server.handlers[f.net[m].arrived.value], f.net[m]))
    && (forall m, n | 0 <= m < n < |f.net| && f.net[m].arrived.Some? :: f.net[m].arrived != f.net[n].arrived)
    && (forall h: nat | h < |f.server.handlers| :: Sent(f, h))
    && (forall m | 0 <= m < |f.net| :: f.net[m].from < |f.runners| && f.net[m].grantId == f.runners[f.net[m].from].grantId)
  }

  /** Request `h` was sent by a runner. */
  ghost predicate Sent(f: Fleet, h: nat) {
    exists m :: 0 <= m < |f.net| && f.net[m].arrived == Some(h)
  }

  /** The message is the runner's consumption, and the server granted it. */
  predicate WonWith(f: Fleet, i: nat, m: nat) {
    && m < |f.net| && f.net[m].from == i && f.net[m].body.ConsumeRequest? && f.net[m].arrived.Some?
    && f.net[m].arrived.value < |f.server.handlers| && IsDispatched(f.server.handlers[f.net[m].arrived.value])
  }

  predicate HoldsGrant(p: Phase) { p.Aborted? || p.Calling? || p.Returned? || p.Broken? }

  predicate HasCalled(p: Phase) { p.Calling? || p.Returned? || p.Broken? }

  ghost predicate RunnersSound(f: Fleet) {
    forall i | 0 <= i < |f.runners| ::
      var p := f.runners[i].phase;
      && (p.AwaitingConsume? ==> p.msg < |f.net| && f.net[p.msg].from == i && f.net[p.msg].body.ConsumeRequest?)
      && (HoldsGrant(p) ==> WonWith(f, i, p.msg))
  }

  ghost predicate CallsSound(f: Fleet) {
    && (forall i | 0 <= i < |f.runners| :: HasCalled(f.runners[i].phase) <==> i in f.calls)
    && (forall i | i in f.calls :: i < |f.runners|)
    && |f.calls| <= 1
  }

  /** What a runner has been through when it sends a report with this status. */
  predicate Earned(r: Runner, s: ReportStatus) {
    match s
    case ReportSucceeded => r.phase.Returned?
    case ReportFailed => r.phase.Returned?
    case ReportCancelled => r.phase.Aborted?
    case ReportTimedOut => r.phase.Broken? || r.phase.GaveUp?
    case ReportUnknown => r.phase.Broken? || r.phase.GaveUp?
  }

  ghost predicate ReportsEarned(f: Fleet) {
    forall m | 0 <= m < |f.net| && f.net[m].body.ReportRequest? ::
      f.net[m].from < |f.runners| && Earned(f.runners[f.net[m].from], f.net[m].body.report.status)
  }

  ghost predicate FleetSound(u: Setup, f: Fleet) {
    && Sound(u, f.server) && OneDispatch(f.server.handlers) && WinnerArrived(f.server)
    && NetSound(f)
    && RunnersSound(f)
    && CallsSound(f)
    && ReportsEarned(f)
  }

  /** Only one runner can hold a granted consumption. */
  lemma OneHolder(u: Setup, f: Fleet, i: nat, j: nat, m: nat, n: nat)
    requires OneDispatch(f.server.handlers) && NetSound(f)
    requires WonWith(f, i, m) && WonWith(f, j, n)
    ensures i == j && m == n
  {
    assert IsDispatched(f.server.handlers[f.net[m].arrived.value]) && IsDispatched(f.server.handlers[f.net[n].arrived.value]);
  }

  // ------------------------------------------------------------ every happening

  /** Server steps and arrivals leave all messages and runners as they are. */
  lemma ServerMoves(u: Setup, f: Fleet, e: Event)
    requires DispatchedWell(u) && FleetSound(u, f) && ServerEvent(e)
    ensures FleetSound(u, f.(server := Next(u, f.server, e)))
  {
    ServerStep(u, f.server, e);
    var g := f.(server := Next(u, f.server, e));
    assert |g.server.handlers| == |f.server.handlers|;
    forall h: nat | h < |g.server.handlers| ensures Sent(g, h) {
      assert Sent(f, h);
    }
    forall i | 0 <= i < |f.runners| && HoldsGrant(f.runners[i].phase) ensures WonWith(g, i, f.runners[i].phase.msg) {
      assert WonWith(f, i, f.runners[i].phase.msg);
    }
  }

  /** The server has one request more, the one that message `m` became. */
  ghost predicate Delivered(f: Fleet, g: Fleet, m: nat) {
    && m < |f.net| && f.net[m].arrived.None?
    && g.runners == f.runners && g.calls == f.calls
    && g.net == f.net[m := f.net[m].(arrived := Some(|f.server.handlers|))]
    && |g.server.handlers| == |f.server.handlers| + 1
    && Carries(g.server.handlers[|f.server.handlers|], f.net[m])
    && forall i | 0 <= i < |f.server.handlers| :: SameRequest(f.server.handlers[i], g.server.handlers[i])
  }

  lemma DeliveryKeepsNet(f: Fleet, g: Fleet, m: nat)
    requires NetSound(f) && Delivered(f, g, m)
    ensures NetSound(g)
  {
    var k := |f.server.handlers|;
    forall h: nat | h < k + 1 ensures Sent(g, h) {
      if h < k {
        assert Sent(f, h);
        var n :| 0 <= n < |f.net| && f.net[n].arrived == Some(h);
        assert g.net[n].arrived == Some(h);
      } else {
        assert g.net[m].arrived == Some(h);
      }
    }
  }

  lemma DeliveryKeepsRunners(f: Fleet, g: Fleet, m: nat)
    requires NetSound(f) && RunnersSound(f) && Delivered(f, g, m)
    ensures RunnersSound(g)
  {
    forall i | 0 <= i < |f.runners| && HoldsGrant(f.runners[i].phase) ensures WonWith(g, i, f.runners[i].phase.msg) {
      assert WonWith(f, i, f.runners[i].phase.msg);
    }
  }

  lemma Delivery(u: Setup, f: Fleet, m: nat)
    requires DispatchedWell(u) && FleetSound(u, f) && m < |f.net| && f.net[m].arrived.None?
    ensures FleetSound(u, Happens(u, f, Deliver(m)))
  {
    ServerStep(u, f.server, RequestOf(f.net[m]));
    var g := Happens(u, f, Deliver(m));
    assert Delivered(f, g, m);
    DeliveryKeepsNet(f, g, m);
    DeliveryKeepsRunners(f, g, m);
  }

  lemma Launching(u: Setup, f: Fleet, k: Kind, id: string)
    requires FleetSound(u, f)
    ensures FleetSound(u, Happens(u, f, Launch(k, id)))
  {
    var g := Happens(u, f, Launch(k, id));
    forall h: nat | h < |g.server.handlers| ensures Sent(g, h) {
      assert Sent(f, h);
    }
    forall i | 0 <= i < |f.runners| && HoldsGrant(f.runners[i].phase) ensures WonWith(g, i, f.runners[i].phase.msg) {
      assert WonWith(f, i, f.runners[i].phase.msg);
    }
  }

  /** Runner `i` enters `p` and perhaps sends one message; everything else stays. */
  function Moved(f: Fleet, i: nat, p: Phase, body: Option<Body>): Fleet
    requires i < |f.runners|
  {
    if body.Some? then Post(Enter(f, i, p), i, body.value) else Enter(f, i, p)
  }

  /** What a runner may do to its own phase, and what it may send with it. */
  ghost predicate GoodMove(f: Fleet, i: nat, p: Phase, body: Option<Body>) {
    && i < |f.runners|
    && (f.runners[i].phase.Idle? || f.runners[i].phase.AwaitingConsume? || f.runners[i].phase.Calling?)
    && (HasCalled(p) <==> HasCalled(f.runners[i].phase))
    && (HoldsGrant(p) ==> WonWith(f, i, p.msg))
    && (p.AwaitingConsume? ==> body.Some? && body.value.ConsumeRequest? && p.msg == |f.net|)
    && (body.Some? && body.value.ReportRequest? ==> Earned(f.runners[i].(phase := p), body.value.report.status))
  }

  lemma MoveKeepsNet(f: Fleet, i: nat, p: Phase, body: Option<Body>)
    requires NetSound(f) && GoodMove(f, i, p, body)
    ensures NetSound(Moved(f, i, p, body))
  {
    var g := Moved(f, i, p, body);
    assert forall m | 0 <= m < |f.net| :: g.net[m] == f.net[m];
    forall h: nat | h < |g.server.handlers| ensures Sent(g, h) {
      assert Sent(f, h);
      var m :| 0 <= m < |f.net| && f.net[m].arrived == Some(h);
      assert g.net[m].arrived == Some(h);
    }
  }

  lemma MoveKeepsRunners(f: Fleet, i: nat, p: Phase, body: Option<Body>)
    requires RunnersSound(f) && GoodMove(f, i, p, body)
    ensures RunnersSound(Moved(f, i, p, body))
  {
    var g := Moved(f, i, p, body);
    assert forall m | 0 <= m < |f.net| :: g.net[m] == f.net[m];
    forall j | 0 <= j < |f.runners| && HoldsGrant(g.runners[j].phase) ensures WonWith(g, j, g.runners[j].phase.msg) {
      if j != i {
        assert WonWith(f, j, f.runners[j].phase.msg);
      }
    }
  }

  lemma MoveKeepsReports(f: Fleet, i: nat, p: Phase, body: Option<Body>)
    requires ReportsEarned(f) && NetSound(f) && GoodMove(f, i, p, body)
    ensures ReportsEarned(Moved(f, i, p, body))
  {
    var g := Moved(f, i, p, body);
    assert forall m | 0 <= m < |f.net| :: g.net[m] == f.net[m];
    forall m | 0 <= m < |f.net| && f.net[m].body.ReportRequest?
      ensures Earned(g.runners[f.net[m].from], f.net[m].body.report.status)
    {
      assert Earned(f.runners[f.net[m].from], f.net[m].body.report.status);
    }
  }

  lemma RunnerMoves(u: Setup, f: Fleet, i: nat, p: Phase, body: Option<Body>)
    requires FleetSound(u, f) && GoodMove(f, i, p, body)
    ensures FleetSound(u, Moved(f, i, p, body))
  {
    MoveKeepsNet(f, i, p, body);
    MoveKeepsRunners(f, i, p, body);
    MoveKeepsReports(f, i, p, body);
  }

  /** The call: the runner holds the only granted consumption, so nobody has called before. */
  lemma FirstCall(u: Setup, f: Fleet, i: nat)
    requires FleetSound(u, f) && i < |f.runners| && f.runners[i].phase.AwaitingConsume?
    requires WonWith(f, i, f.runners[i].phase.msg)
    ensures var m := f.runners[i].phase.msg;
            FleetSound(u, Enter(f, i, Calling(m)).(calls := f.calls + [i]))
  {
    var m := f.runners[i].phase.msg;
    if f.calls != [] {
      var j := f.calls[0];
      assert j in f.calls;
      assert HoldsGrant(f.runners[j].phase);
      OneHolder(u, f, i, j, m, f.runners[j].phase.msg);
    }
    var g := Enter(f, i, Calling(m)).(calls := f.calls + [i]);
    assert g.calls == [i];
    forall h: nat | h < |g.server.handlers| ensures Sent(g, h) {
      assert Sent(f, h);
    }
    forall j | 0 <= j < |f.runners| && HoldsGrant(g.runners[j].phase) ensures WonWith(g, j, g.runners[j].phase.msg) {
      if j != i {
        assert WonWith(f, j, f.runners[j].phase.msg);
      }
    }
    forall n | 0 <= n < |f.net| && f.net[n].body.ReportRequest?
      ensures Earned(g.runners[f.net[n].from], f.net[n].body.report.status)
    {
      assert Earned(f.runners[f.net[n].from], f.net[n].body.report.status);
    }
  }

  lemma Answer(u: Setup, f: Fleet, i: nat, aborted: bool, report: Report)
    requires FleetSound(u, f)
    ensures FleetSound(u, Happens(u, f, ConsumeAnswered(i, aborted, report)))
  {
    if i < |f.runners| && f.runners[i].phase.AwaitingConsume? {
      var m := f.runners[i].phase.msg;
      if f.net[m].arrived.Some? {
        var h := f.net[m].arrived.value;
        if Answered(f.server, h, false) {
          RunnerMoves(u, f, i, Stopped, None);
        } else if Answered(f.server, h, true) {
          assert WonWith(f, i, m);
          if aborted && f.runners[i].kind == Wrapper {
            if report.status == ReportCancelled {
              RunnerMoves(u, f, i, Aborted(m), Some(ReportRequest(report)));
            }
          } else {
            FirstCall(u, f, i);
          }
        }
      }
    }
  }

  lemma Asking(u: Setup, f: Fleet, i: nat)
    requires FleetSound(u, f)
    ensures FleetSound(u, Happens(u, f, SendConsume(i)))
  {
    if i < |f.runners| && f.runners[i].phase == Idle {
      RunnerMoves(u, f, i, AwaitingConsume(|f.net|), Some(ConsumeRequest));
    }
  }

  lemma GivingUp(u: Setup, f: Fleet, i: nat, report: Report, reports: bool)
    requires FleetSound(u, f)
    ensures FleetSound(u, Happens(u, f, ConsumeUnanswered(i, report, reports)))
  {
    if i < |f.runners| && f.runners[i].phase.AwaitingConsume? {
      if !reports || f.runners[i].kind == Sdk {
        RunnerMoves(u, f, i, Stopped, None);
      } else if report.status == ReportTimedOut || report.status == ReportUnknown {
        RunnerMoves(u, f, i, GaveUp, Some(ReportRequest(report)));
      }
    }
  }

  lemma Returning(u: Setup, f: Fleet, i: nat, report: Report)
    requires FleetSound(u, f)
    ensures FleetSound(u, Happens(u, f, CallReturns(i, report)))
  {
    if i < |f.runners| && f.runners[i].phase.Calling? && ReportsReturn(f.runners[i].kind, report.status) {
      RunnerMoves(u, f, i, Returned(f.runners[i].phase.msg), Some(ReportRequest(report)));
    }
  }

  lemma Breaking(u: Setup, f: Fleet, i: nat, report: Report)
    requires FleetSound(u, f)
    ensures FleetSound(u, Happens(u, f, CallBreaks(i, report)))
  {
    if i < |f.runners| && f.runners[i].phase.Calling? && ReportsBreak(f.runners[i].kind, report.status) {
      RunnerMoves(u, f, i, Broken(f.runners[i].phase.msg), Some(ReportRequest(report)));
    }
  }

  lemma EveryHappening(u: Setup, f: Fleet, e: Happening)
    requires DispatchedWell(u) && FleetSound(u, f)
    ensures FleetSound(u, Happens(u, f, e))
  {
    match e
    case Grants(event) =>
      if ServerEvent(event) {
        ServerMoves(u, f, event);
      }
    case Launch(k, g) => Launching(u, f, k, g);
    case SendConsume(i) => Asking(u, f, i);
    case Deliver(m) =>
      if m < |f.net| && f.net[m].arrived.None? {
        Delivery(u, f, m);
      }
    case ConsumeAnswered(i, aborted, report) => Answer(u, f, i, aborted, report);
    case ConsumeUnanswered(i, report, reports) => GivingUp(u, f, i, report, reports);
    case CallReturns(i, report) => Returning(u, f, i, report);
    case CallBreaks(i, report) => Breaking(u, f, i, report);
  }

  lemma {:induction false} EveryHistoryIsSound(u: Setup, scope: seq<CE.Exposure>, history: seq<Happening>)
    requires DispatchedWell(u) && FreshScope(u, scope)
    ensures FleetSound(u, RunFleet(u, scope, history))
  {
    if history == [] {
      ProtocolSafety.EveryRunIsSound(u, scope, []);
    } else {
      EveryHistoryIsSound(u, scope, history[..|history| - 1]);
      EveryHappening(u, RunFleet(u, scope, history[..|history| - 1]), history[|history| - 1]);
    }
  }

  // ------------------------------------------------------------ guarantees

  /** Runner `i` called downstream, and its consumption of its grant is the one the server granted. */
  ghost predicate CalledByRight(f: Fleet, i: nat) {
    && i < |f.runners| && HasCalled(f.runners[i].phase) && WonWith(f, i, f.runners[i].phase.msg)
    && f.server.store.attempt.state != Reserved
    && f.server.store.attempt.grantId == Some(f.runners[i].grantId)
  }

  /**
    At most one downstream call is made for a tool call, whatever grants it has and however
    many runners compete for them: by the runner whose consumption won.
   */
  lemma AtMostOneCall(u: Setup, scope: seq<CE.Exposure>, history: seq<Happening>)
    requires DispatchedWell(u) && FreshScope(u, scope)
    ensures var f := RunFleet(u, scope, history);
            |f.calls| <= 1 && forall i | i in f.calls :: CalledByRight(f, i)
  {
    EveryHistoryIsSound(u, scope, history);
    var f := RunFleet(u, scope, history);
    forall i | i in f.calls ensures CalledByRight(f, i) {
      var m := f.runners[i].phase.msg;
      assert WonWith(f, i, m);
      var h := f.net[m].arrived.value;
      assert Carries(f.server.handlers[h], f.net[m]);
      assert HandlerSound(u, f.server.store, f.server.handlers[h]);
    }
  }

  /** Message `m` arrived and carries the report that completed the attempt. */
  predicate WinningMessage(f: Fleet, m: nat) {
    && m < |f.net| && f.net[m].arrived.Some? && f.net[m].body.ReportRequest?
    && f.server.store.winner == Some(f.net[m].body.report)
  }

  lemma WinnersMessage(u: Setup, f: Fleet) returns (m: nat)
    requires FleetSound(u, f) && f.server.store.winner.Some?
    ensures WinningMessage(f, m)
  {
    var w := f.server;
    var h :| 0 <= h < |w.handlers| && w.handlers[h].ReportOutcome? && w.handlers[h].report == w.store.winner.value;
    assert Sent(f, h);
    m :| 0 <= m < |f.net| && f.net[m].arrived == Some(h);
    assert Carries(w.handlers[h], f.net[m]);
  }

  /** Whoever sent it had earned it, and the attempt is in the state it asks for. */
  lemma SenderOfWinner(u: Setup, f: Fleet, m: nat)
    requires FleetSound(u, f) && WinningMessage(f, m)
    ensures f.net[m].from < |f.runners| && Earned(f.runners[f.net[m].from], f.net[m].body.report.status)
    ensures f.server.store.attempt.state == TerminalStateOf(f.net[m].body.report.status)
  {
    assert AttemptSound(u, f.server.store);
  }

  /**
    What a terminal state says about the call. Succeeded or failed: there was exactly one call
    and it returned normally. Cancelled: there was none, and there will be none.
   */
  lemma OutcomeTellsTheCall(u: Setup, scope: seq<CE.Exposure>, history: seq<Happening>)
    requires DispatchedWell(u) && FreshScope(u, scope)
    ensures var f := RunFleet(u, scope, history);
            var s := f.server.store.attempt.state;
            && (s == Succeeded || s == FailedAfterDispatch ==>
                  |f.calls| == 1 && f.calls[0] < |f.runners| && f.runners[f.calls[0]].phase.Returned?)
            && (s == CancelledRun ==> f.calls == [])
  {
    EveryHistoryIsSound(u, scope, history);
    var f := RunFleet(u, scope, history);
    if f.server.store.winner.Some? {
      var m := WinnersMessage(u, f);
      SenderOfWinner(u, f, m);
      var i := f.net[m].from;
      ReturnedIsTheCaller(u, f, i);
      AbortedMeansNoCall(u, f, i);
    }
  }

  lemma ReturnedIsTheCaller(u: Setup, f: Fleet, i: nat)
    requires FleetSound(u, f) && i < |f.runners|
    ensures f.runners[i].phase.Returned? ==> f.calls == [i]
  {
    assert HasCalled(f.runners[i].phase) <==> i in f.calls;
  }

  lemma AbortedMeansNoCall(u: Setup, f: Fleet, i: nat)
    requires FleetSound(u, f) && i < |f.runners|
    ensures f.runners[i].phase.Aborted? ==> f.calls == []
  {
    if f.runners[i].phase.Aborted? && f.calls != [] {
      var j := f.calls[0];
      assert j in f.calls && HoldsGrant(f.runners[j].phase);
      OneHolder(u, f, i, j, f.runners[i].phase.msg, f.runners[j].phase.msg);
    }
  }

  /** The runners that called are one runner. */
  lemma OneCaller(u: Setup, f: Fleet, i: nat, j: nat)
    requires FleetSound(u, f) && i < |f.runners| && j < |f.runners|
    requires HasCalled(f.runners[i].phase) && HasCalled(f.runners[j].phase)
    ensures i == j
  {
    assert i in f.calls && j in f.calls;
  }

  /** After runner `i`'s call returned, message `m` settled how the attempt ends. */
  predicate SettledBy(f: Fleet, i: nat, m: nat) {
    var s := f.server.store.attempt.state;
    && m < |f.net| && f.net[m].from < |f.runners| && f.net[m].body.ReportRequest?
    && s == TerminalStateOf(f.net[m].body.report.status)
    && (s == TimedOut || s == UnknownOutcome <==> f.runners[f.net[m].from].phase.GaveUp?)
    && (s == Succeeded || s == FailedAfterDispatch <==> f.net[m].from == i)
    && s != CancelledRun
  }

  lemma WinnerAfterReturn(u: Setup, f: Fleet, i: nat, m: nat)
    requires FleetSound(u, f) && i < |f.runners| && f.runners[i].phase.Returned? && WinningMessage(f, m)
    ensures SettledBy(f, i, m)
  {
    SenderOfWinner(u, f, m);
    var j := f.net[m].from;
    if HasCalled(f.runners[j].phase) {
      OneCaller(u, f, i, j);
    }
    ReturnedIsTheCaller(u, f, i);
    AbortedMeansNoCall(u, f, j);
  }

  /**
    The converse does not hold, and this says when it fails: after a call that returned
    normally, the attempt ends as timed out or unknown if and only if the report that completed
    it was sent by a runner that gave up waiting for the answer to its own consumption; and it
    ends as succeeded or failed if and only if the report came from the caller.
   */
  lemma WhoBeatsTheCall(u: Setup, scope: seq<CE.Exposure>, history: seq<Happening>, i: nat)
    requires DispatchedWell(u) && FreshScope(u, scope)
    requires var f := RunFleet(u, scope, history);
             i < |f.runners| && f.runners[i].phase.Returned? && Terminal(f.server.store.attempt.state)
    ensures var f := RunFleet(u, scope, history);
            && (exists m: nat :: WinningMessage(f, m))
            && forall m: nat | WinningMessage(f, m) :: SettledBy(f, i, m)
  {
    EveryHistoryIsSound(u, scope, history);
    var f := RunFleet(u, scope, history);
    var _ := WinnersMessage(u, f);
    forall m: nat | WinningMessage(f, m) ensures SettledBy(f, i, m) {
      WinnerAfterReturn(u, f, i, m);
    }
  }

  /** While nobody gives up on its consumption, a call that returned normally is recorded as it returned, or not yet. */
  lemma UndisturbedReturnIsRecorded(u: Setup, scope: seq<CE.Exposure>, history: seq<Happening>, i: nat)
    requires DispatchedWell(u) && FreshScope(u, scope)
    requires var f := RunFleet(u, scope, history);
             && i < |f.runners| && f.runners[i].phase.Returned?
             && forall j | 0 <= j < |f.runners| :: !f.runners[j].phase.GaveUp?
    ensures var f := RunFleet(u, scope, history);
            Terminal(f.server.store.attempt.state) ==>
              exists m: nat :: WinningMessage(f, m) && f.net[m].from == i
                          && f.server.store.attempt.state == TerminalStateOf(f.net[m].body.report.status)
  {
    var f := RunFleet(u, scope, history);
    if Terminal(f.server.store.attempt.state) {
      WhoBeatsTheCall(u, scope, history, i);
      EveryHistoryIsSound(u, scope, history);
      var m := WinnersMessage(u, f);
      assert SettledBy(f, i, m);
    }
  }

  // ------------------------------------------------------------ a lost race

  lemma Extend(u: Setup, scope: seq<CE.Exposure>, history: seq<Happening>, e: Happening) returns (longer: seq<Happening>)
    ensures RunFleet(u, scope, longer) == Happens(u, RunFleet(u, scope, history), e)
  {
    longer := history + [e];
    assert longer[..|longer| - 1] == history;
  }

  const FINE: Env := Env("", false, true)

  /** Two runners have asked for grant `g`; the first has the answer and calls, the second still waits. */
  predicate FirstCallsSecondWaits(u: Setup, f: Fleet) {
    var s := f.server.store;
    && s.attempt == AttemptCell(Dispatched, Some("g"), None) && s.call == u.initial && s.receipt == None
    && s.winner == None && "g" in s.grants && s.grants["g"].Some?
    && |f.server.handlers| == 1 && |f.net| == 2
    && f.runners == [Runner(Wrapper, "g", Calling(0)), Runner(Wrapper, "g", AwaitingConsume(1))]
  }

  /** The decision on the call was not computed from another state of its scope. */
  predicate DecisionCurrent(u: Setup, scope: seq<CE.Exposure>) {
    RevisionGuard(u).Some? ==> RevisionGuard(u).value.revision == |scope|
  }

  /** Both have asked, and the server has got to neither. */
  predicate BothWait(u: Setup, scope: seq<CE.Exposure>, f: Fleet) {
    && f.server == World(Store(map["g" := None], AttemptCell(Reserved, Some("g"), None), u.initial, None, scope, [], None), [])
    && f.net == [Message(0, "g", ConsumeRequest, None), Message(1, "g", ConsumeRequest, None)]
    && f.runners == [Runner(Wrapper, "g", AwaitingConsume(0)), Runner(Wrapper, "g", AwaitingConsume(1))]
    && f.calls == []
  }

  lemma BothAsk(u: Setup, scope: seq<CE.Exposure>) returns (h: seq<Happening>)
    ensures BothWait(u, scope, RunFleet(u, scope, h))
  {
    h := Extend(u, scope, [], Grants(CreateGrant("g")));
    h := Extend(u, scope, h, Grants(BindGrant("g")));
    h := Extend(u, scope, h, Launch(Wrapper, "g"));
    h := Extend(u, scope, h, Launch(Wrapper, "g"));
    h := Extend(u, scope, h, SendConsume(0));
    h := Extend(u, scope, h, SendConsume(1));
  }

  lemma TheFirstIsRead(u: Setup, scope: seq<CE.Exposure>, history: seq<Happening>) returns (h: seq<Happening>)
    requires DispatchedWell(u) && McpEvidenceConsistent(u.identity, u.envelope)
               && BothWait(u, scope, RunFleet(u, scope, history))
    ensures var before, f := RunFleet(u, scope, history), RunFleet(u, scope, h);
            f == before.(server := World(before.server.store, [Consume("g", Dispatching)]),
                         net := before.net[0 := before.net[0].(arrived := Some(0))])
  {
    h := Extend(u, scope, history, Deliver(0));
    h := Extend(u, scope, h, Grants(Advance(0, FINE)));
  }

  /** The first has its consumption granted and does not know it yet. */
  predicate FirstIsGranted(u: Setup, f: Fleet) {
    var s := f.server.store;
    && s.attempt == AttemptCell(Dispatched, Some("g"), None) && s.call == u.initial && s.receipt == None
    && s.winner == None && "g" in s.grants && s.grants["g"].Some?
    && f.server.handlers == [Consume("g", Dispatched_)] && |f.net| == 2 && f.net[0].arrived == Some(0)
    && f.runners == [Runner(Wrapper, "g", AwaitingConsume(0)), Runner(Wrapper, "g", AwaitingConsume(1))]
  }

  lemma TheFirstIsGranted(u: Setup, scope: seq<CE.Exposure>, history: seq<Happening>) returns (h: seq<Happening>)
    requires DispatchedWell(u) && DecisionCurrent(u, scope) && McpEvidenceConsistent(u.identity, u.envelope)
    requires BothWait(u, scope, RunFleet(u, scope, history))
    ensures FirstIsGranted(u, RunFleet(u, scope, h))
  {
    h := TheFirstIsRead(u, scope, history);
    h := Extend(u, scope, h, Grants(Advance(0, FINE)));
  }

  lemma TheFirstCalls(u: Setup, scope: seq<CE.Exposure>, history: seq<Happening>) returns (h: seq<Happening>)
    requires FirstIsGranted(u, RunFleet(u, scope, history))
    ensures FirstCallsSecondWaits(u, RunFleet(u, scope, h))
  {
    var unused := Report(ReportCancelled, None, None, None, None, "");
    h := Extend(u, scope, history, ConsumeAnswered(0, false, unused));
  }

  const LATE: Report := Report(ReportTimedOut, Some("timed out"), None, None, None, "")

  /** The second runner's report of its own timeout is on the server, and nothing is recorded yet. */
  predicate LateReportAt(u: Setup, f: Fleet, p: Reporting) {
    var s := f.server.store;
    && s.attempt == AttemptCell(Dispatched, Some("g"), None) && s.call == u.initial && s.receipt == None
    && "g" in s.grants && s.grants["g"].Some?
    && |f.server.handlers| == 2 && f.server.handlers[1] == ReportOutcome("g", LATE, p)
    && |f.runners| == 2 && f.runners[0] == Runner(Wrapper, "g", Calling(0)) && f.runners[1].phase == GaveUp
  }

  lemma TheWaiterGivesUp(u: Setup, scope: seq<CE.Exposure>, history: seq<Happening>) returns (h: seq<Happening>)
    requires FirstCallsSecondWaits(u, RunFleet(u, scope, history))
    ensures LateReportAt(u, RunFleet(u, scope, h), AtGrant)
  {
    h := Extend(u, scope, history, ConsumeUnanswered(1, LATE, true));
    h := Extend(u, scope, h, Deliver(2));
  }

  lemma LateReportAdvances(u: Setup, scope: seq<CE.Exposure>, history: seq<Happening>, p: Reporting, q: Reporting)
    returns (h: seq<Happening>)
    requires LateReportAt(u, RunFleet(u, scope, history), p)
    requires var s := RunFleet(u, scope, history).server.store;
             StepReport(u, s, ReportOutcome("g", LATE, p), FINE) == (s, ReportOutcome("g", LATE, q))
    ensures LateReportAt(u, RunFleet(u, scope, h), q)
  {
    h := Extend(u, scope, history, Grants(Advance(1, FINE)));
  }

  lemma TheWaiterReports(u: Setup, scope: seq<CE.Exposure>, history: seq<Happening>) returns (h: seq<Happening>)
    requires DispatchedWell(u) && McpEvidenceConsistent(u.identity, u.envelope)
    requires FirstCallsSecondWaits(u, RunFleet(u, scope, history))
    ensures var f := RunFleet(u, scope, h);
            && f.server.store.attempt.state == TimedOut
            && |f.runners| == 2 && f.runners[0] == Runner(Wrapper, "g", Calling(0)) && f.runners[1].phase == GaveUp
  {
    h := TheWaiterGivesUp(u, scope, history);
    h := LateReportReads(u, scope, h);
    h := LateReportCompares(u, scope, h);
    h := Extend(u, scope, h, Grants(Advance(1, FINE)));
  }

  lemma LateReportReads(u: Setup, scope: seq<CE.Exposure>, history: seq<Happening>) returns (h: seq<Happening>)
    requires LateReportAt(u, RunFleet(u, scope, history), AtGrant)
    ensures LateReportAt(u, RunFleet(u, scope, h), AtAttempt(u.initial))
  {
    h := LateReportAdvances(u, scope, history, AtGrant, AtCall);
    h := LateReportAdvances(u, scope, h, AtCall, AtAttempt(u.initial));
  }

  lemma LateReportCompares(u: Setup, scope: seq<CE.Exposure>, history: seq<Happening>) returns (h: seq<Happening>)
    requires DispatchedWell(u) && McpEvidenceConsistent(u.identity, u.envelope)
    requires LateReportAt(u, RunFleet(u, scope, history), AtAttempt(u.initial))
    ensures LateReportAt(u, RunFleet(u, scope, h), AtTransition(u.initial, ""))
  {
    ghost var seen := AttemptCell(Dispatched, Some("g"), None);
    h := LateReportAdvances(u, scope, history, AtAttempt(u.initial), AtReceipt(u.initial, seen));
    h := LateReportAdvances(u, scope, h, AtReceipt(u.initial, seen), AtTransition(u.initial, ""));
  }

  /** A call that returns normally need not be recorded as succeeded, for any call that can be dispatched in its scope. */
  lemma NormalReturnWithoutSuccess(u: Setup, scope: seq<CE.Exposure>) returns (h: seq<Happening>)
    requires DispatchedWell(u) && DecisionCurrent(u, scope) && McpEvidenceConsistent(u.identity, u.envelope)
    ensures var f := RunFleet(u, scope, h);
            && |f.runners| == 2 && f.runners[0].phase.Returned? && f.runners[1].phase.GaveUp?
            && f.server.store.attempt.state == TimedOut
  {
    h := BothAsk(u, scope);
    h := TheFirstIsGranted(u, scope, h);
    h := TheFirstCalls(u, scope, h);
    h := TheWaiterReports(u, scope, h);
    h := Extend(u, scope, h, CallReturns(0, Report(ReportSucceeded, None, None, None, None, "")));
  }
}
