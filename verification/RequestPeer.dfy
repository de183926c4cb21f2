/**
  The JSON-RPC peer: requests wait for a response, a timeout, an abort or a failure of the
  transport, and whichever comes first settles them.

  Every event of the peer is one method of `JsonRpcPeer`. `Step` is the same on values, and
  `StatusOf` is an independent account of a single request that never looks at the others.
 */
module RequestPeer {
  import opened Basics

  /** Message ids; a JavaScript `Map` tells the number 1 from the string `"1"`. */
  datatype JsonRpcId = Num(n: int) | Str(text: string)

  datatype Signal = NoSignal | Live | AlreadyAborted

  datatype Outcome = Resolved | RemoteError | TimedOut | Cancelled | TransportError

  datatype Settlement = Settlement(id: nat, outcome: Outcome)

  datatype Event =
    | Request(signal: Signal, writeFails: bool)
    | Message(id: Option<JsonRpcId>, hasMethod: bool, isError: bool)
    | Timeout(request: nat)
    | Abort(request: nat)
    | Fail

  /**
    `pending` in the insertion order of the `Map`, the timers and abort listeners that are
    still installed, and every settlement so far.
   */
  datatype State = State(nextId: nat, pending: seq<nat>, timers: set<nat>, listeners: set<nat>, log: seq<Settlement>)

  const INITIAL: State := State(1, [], {}, {}, [])

  function Remove(ids: seq<nat>, id: nat): (r: seq<nat>) {
    if ids == [] then [] else if ids[0] == id then ids[1..] else [ids[0]] + Remove(ids[1..], id)
  }

  /** `takePending(id)`, followed by the settlement when there was such a request. */
  function Settle(s: State, id: nat, outcome: Outcome): State {
    if id !in s.pending then s
    else
      s.(pending := Remove(s.pending, id),
         timers := s.timers - {id},
         listeners := s.listeners - {id},
         log := s.log + [Settlement(id, outcome)])
  }

  function SettleAll(s: State, ids: seq<nat>, outcome: Outcome): State
    decreases |ids|
  {
    if ids == [] then s else SettleAll(Settle(s, ids[0], outcome), ids[1..], outcome)
  }

  function Register(s: State, signal: Signal): State {
    var id := s.nextId;
    s.(nextId := id + 1,
       pending := s.pending + [id],
       timers := s.timers + {id},
       listeners := if signal == Live then s.listeners + {id} else s.listeners)
  }

  /** The request a message answers: it has an id, and it is neither a request nor a notification. */
  function Answers(m: Event): Option<nat>
    requires m.Message?
  {
    if m.id.Some? && !m.hasMethod && m.id.value.Num? && m.id.value.n >= 0 then Some(m.id.value.n) else None
  }

  function Step(s: State, e: Event): State {
    match e
    case Request(signal, writeFails) =>
      var t := Register(s, signal);
      if signal == AlreadyAborted then Settle(t, s.nextId, Cancelled)
      else if writeFails then Settle(t, s.nextId, TransportError)
      else t
    case Message(_, _, isError) =>
      if Answers(e).None? then s else Settle(s, Answers(e).value, if isError then RemoteError else Resolved)
    case Timeout(id) => Settle(s, id, TimedOut)
    case Abort(id) => Settle(s, id, Cancelled)
    case Fail => SettleAll(s, s.pending, TransportError)
  }

  function Run(events: seq<Event>): State {
    if events == [] then INITIAL else Step(Run(events[..|events| - 1]), events[|events| - 1])
  }

  // ------------------------------------------------------------ the class

  class JsonRpcPeer {
    var nextId: nat
    var pending: seq<nat>
    var timers: set<nat>
    var listeners: set<nat>
    var log: seq<Settlement>

    constructor ()
      ensures View() == INITIAL
    {
      nextId, pending, timers, listeners, log := 1, [], {}, {}, [];
    }

    ghost function View(): State
      reads this
    {
      State(nextId, pending, timers, listeners, log)
    }

    method TakePending(id: nat) returns (found: bool)
      modifies this
      ensures found == (id in old(pending))
      ensures nextId == old(nextId) && log == old(log)
      ensures pending == Remove(old(pending), id)
      ensures timers == if found then old(timers) - {id} else old(timers)
      ensures listeners == if found then old(listeners) - {id} else old(listeners)
    {
      found := id in pending;
      RemoveAbsent(pending, id);
      if !found {
        return;
      }
      pending := Remove(pending, id);
      timers := timers - {id};
      listeners := listeners - {id};
    }

    /** What `abort`, the timer and the answer do: at most one settlement. */
    method SettleOnce(id: nat, outcome: Outcome)
      modifies this
      ensures View() == Settle(old(View()), id, outcome)
    {
      var found := TakePending(id);
      if found {
        log := log + [Settlement(id, outcome)];
      } else {
        RemoveAbsent(old(pending), id);
      }
    }

    method SendRequest(signal: Signal, writeFails: bool) returns (id: nat)
      modifies this
      ensures id == old(nextId)
      ensures View() == Step(old(View()), Request(signal, writeFails))
    {
      id := nextId;
      nextId := nextId + 1;
      timers := timers + {id};
      pending := pending + [id];
      if signal == AlreadyAborted {
        SettleOnce(id, Cancelled);
        return;
      }
      if signal == Live {
        listeners := listeners + {id};
      }
      if writeFails {
        SettleOnce(id, TransportError);
      }
    }

    method OnMessage(id: Option<JsonRpcId>, hasMethod: bool, isError: bool)
      modifies this
      ensures View() == Step(old(View()), Message(id, hasMethod, isError))
    {
      if id.Some? && !hasMethod {
        match id.value {
          case Num(n) =>
            if n >= 0 {
              SettleOnce(n, if isError then RemoteError else Resolved);
            }
          case Str(_) =>
        }
      }
    }

    method OnTimeout(id: nat)
      modifies this
      ensures View() == Step(old(View()), Timeout(id))
    {
      SettleOnce(id, TimedOut);
    }

    method OnAbort(id: nat)
      modifies this
      ensures View() == Step(old(View()), Abort(id))
    {
      SettleOnce(id, Cancelled);
    }

    method FailAll()
      modifies this
      ensures View() == Step(old(View()), Fail)
    {
      var keys := pending;
      var i := 0;
      while i < |keys|
        invariant 0 <= i <= |keys|
        invariant SettleAll(View(), keys[i..], TransportError) == SettleAll(old(View()), keys, TransportError)
      {
        assert keys[i..][1..] == keys[i + 1..];
        SettleOnce(keys[i], TransportError);
        i := i + 1;
      }
    }
  }

  // ------------------------------------------------------------ one request by itself

  datatype Status = NotIssued | Pending | Settled(outcome: Outcome)

  function Requests(events: seq<Event>): nat {
    if events == [] then 0
    else Requests(events[..|events| - 1]) + if events[|events| - 1].Request? then 1 else 0
  }

  /** What the event says about request `i` once it waits. */
  function Verdict(e: Event, i: nat): Option<Outcome> {
    match e
    case Request(_, _) => None
    case Message(_, _, isError) =>
      if Answers(e) == Some(i) then Some(if isError then RemoteError else Resolved) else None
    case Timeout(id) => if id == i then Some(TimedOut) else None
    case Abort(id) => if id == i then Some(Cancelled) else None
    case Fail => Some(TransportError)
  }

  function FromVerdict(v: Option<Outcome>): Status {
    if v.Some? then Settled(v.value) else Pending
  }

  function Birth(e: Event): Status
    requires e.Request?
  {
    if e.signal == AlreadyAborted then Settled(Cancelled)
    else if e.writeFails then Settled(TransportError)
    else Pending
  }

  /** The `i`-th request: born with its `Request` event, settled by the first verdict on it. */
  function StatusOf(events: seq<Event>, i: nat): Status {
    if events == [] then NotIssued
    else
      var before, e := events[..|events| - 1], events[|events| - 1];
      match StatusOf(before, i)
      case NotIssued => if e.Request? && Requests(before) + 1 == i then Birth(e) else NotIssued
      case Pending => FromVerdict(Verdict(e, i))
      case Settled(outcome) => Settled(outcome)
  }

  // ------------------------------------------------------------ invariants

  ghost predicate Once(ids: seq<nat>) {
    forall i, j | 0 <= i < j < |ids| :: ids[i] != ids[j]
  }

  function LogIds(log: seq<Settlement>): (ids: seq<nat>)
    ensures |ids| == |log|
    ensures forall i | 0 <= i < |log| :: ids[i] == log[i].id
  {
    seq(|log|, i requires 0 <= i < |log| => log[i].id)
  }

  /**
    The issued ids are 1 up to `nextId`; each is pending once or settled once, never both; the
    timers are exactly those of the pending requests, and no settled request keeps a listener.
   */
  ghost predicate Valid(s: State) {
    && s.nextId >= 1
    && Once(s.pending + LogIds(s.log))
    && (forall id: nat :: 1 <= id < s.nextId <==> id in s.pending || id in LogIds(s.log))
    && (forall id: nat :: id in s.timers <==> id in s.pending)
    && (forall id: nat | id in s.listeners :: id in s.pending)
  }

  lemma {:induction false} RemoveAbsent(ids: seq<nat>, id: nat)
    ensures id !in ids ==> Remove(ids, id) == ids
    ensures forall x: nat | x in Remove(ids, id) :: x in ids
    ensures forall x: nat | x in ids && x != id :: x in Remove(ids, id)
    ensures |Remove(ids, id)| == if id in ids then |ids| - 1 else |ids|
  {
    if ids != [] {
      RemoveAbsent(ids[1..], id);
      assert ids == [ids[0]] + ids[1..];
    }
  }

  lemma OnceSplit(a: seq<nat>, b: seq<nat>)
    requires Once(a + b)
    ensures Once(a) && Once(b) && forall x: nat | x in a :: x !in b
  {
    forall i, j | 0 <= i < j < |a| ensures a[i] != a[j] {
      assert (a + b)[i] == a[i] && (a + b)[j] == a[j];
    }
    forall i, j | 0 <= i < j < |b| ensures b[i] != b[j] {
      assert (a + b)[|a| + i] == b[i] && (a + b)[|a| + j] == b[j];
    }
    forall i, j | 0 <= i < |a| && 0 <= j < |b| ensures a[i] != b[j] {
      assert (a + b)[i] == a[i] && (a + b)[|a| + j] == b[j];
    }
  }

  lemma OnceJoin(a: seq<nat>, b: seq<nat>)
    requires Once(a) && Once(b) && forall x: nat | x in a :: x !in b
    ensures Once(a + b)
  {
    var c := a + b;
    forall i, j | 0 <= i < j < |c| ensures c[i] != c[j] {
      if j < |a| {
        assert c[i] == a[i] && c[j] == a[j];
      } else if i < |a| {
        assert c[i] == a[i] && a[i] in a && c[j] == b[j - |a|] && b[j - |a|] in b;
      } else {
        assert c[i] == b[i - |a|] && c[j] == b[j - |a|];
      }
    }
  }

  lemma {:induction false} RemoveOnce(ids: seq<nat>, id: nat)
    requires Once(ids)
    ensures Once(Remove(ids, id)) && id !in Remove(ids, id)
  {
    if ids != [] {
      var head, tail := ids[0], ids[1..];
      assert ids == [head] + tail;
      OnceSplit([head], tail);
      if head != id {
        RemoveOnce(tail, id);
        RemoveAbsent(tail, id);
        OnceJoin([head], Remove(tail, id));
      }
    }
  }

  lemma SettleValid(s: State, id: nat, outcome: Outcome)
    requires Valid(s)
    ensures Valid(Settle(s, id, outcome))
  {
    if id in s.pending {
      var t := Settle(s, id, outcome);
      OnceSplit(s.pending, LogIds(s.log));
      RemoveOnce(s.pending, id);
      RemoveAbsent(s.pending, id);
      assert LogIds(t.log) == LogIds(s.log) + [id];
      OnceJoin(LogIds(s.log), [id]);
      OnceJoin(t.pending, LogIds(t.log));
    }
  }

  lemma {:induction false} SettleAllValid(s: State, ids: seq<nat>, outcome: Outcome)
    requires Valid(s)
    ensures Valid(SettleAll(s, ids, outcome))
    decreases |ids|
  {
    if ids != [] {
      SettleValid(s, ids[0], outcome);
      SettleAllValid(Settle(s, ids[0], outcome), ids[1..], outcome);
    }
  }

  lemma RegisterValid(s: State, signal: Signal)
    requires Valid(s)
    ensures Valid(Register(s, signal))
  {
    var t := Register(s, signal);
    OnceSplit(s.pending, LogIds(s.log));
    assert s.nextId !in s.pending && s.nextId !in LogIds(s.log);
    OnceJoin(s.pending, [s.nextId]);
    OnceJoin(t.pending, LogIds(t.log));
  }

  lemma StepValid(s: State, e: Event)
    requires Valid(s)
    ensures Valid(Step(s, e))
  {
    match e
    case Request(signal, writeFails) =>
      RegisterValid(s, signal);
      SettleValid(Register(s, signal), s.nextId, Cancelled);
      SettleValid(Register(s, signal), s.nextId, TransportError);
    case Message(_, _, isError) =>
      if Answers(e).Some? {
        SettleValid(s, Answers(e).value, if isError then RemoteError else Resolved);
      }
    case Timeout(id) => SettleValid(s, id, TimedOut);
    case Abort(id) => SettleValid(s, id, Cancelled);
    case Fail => SettleAllValid(s, s.pending, TransportError);
  }

  /** Every run: no id is issued twice, lost, left pending after its settlement, or settled twice. */
  lemma {:induction false} EveryRunIsValid(events: seq<Event>)
    ensures Valid(Run(events))
  {
    if events == [] {
      assert LogIds([]) == [];
    } else {
      EveryRunIsValid(events[..|events| - 1]);
      StepValid(Run(events[..|events| - 1]), events[|events| - 1]);
    }
  }

  /** The peer's view of request `i`. */
  ghost predicate Shows(s: State, i: nat, status: Status) {
    match status
    case NotIssued => i == 0 || i >= s.nextId
    case Pending => i in s.pending
    case Settled(outcome) => Settlement(i, outcome) in s.log
  }

  lemma SettleShows(s: State, id: nat, outcome: Outcome, i: nat, status: Status)
    requires Valid(s) && Shows(s, i, status)
    ensures Shows(Settle(s, id, outcome), i, if status.Pending? && id == i then Settled(outcome) else status)
  {
    RemoveAbsent(s.pending, id);
  }

  lemma {:induction false} SettleAllShows(s: State, ids: seq<nat>, outcome: Outcome, i: nat, status: Status)
    requires Valid(s) && Shows(s, i, status)
    ensures Shows(SettleAll(s, ids, outcome), i, if status.Pending? && i in ids then Settled(outcome) else status)
    decreases |ids|
  {
    if ids != [] {
      var next := if status.Pending? && ids[0] == i then Settled(outcome) else status;
      SettleShows(s, ids[0], outcome, i, status);
      SettleValid(s, ids[0], outcome);
      SettleAllShows(Settle(s, ids[0], outcome), ids[1..], outcome, i, next);
    }
  }

  lemma StepShows(s: State, e: Event, i: nat, status: Status)
    requires Valid(s) && Shows(s, i, status)
    ensures Shows(Step(s, e), i,
                  match status
                  case NotIssued => if e.Request? && s.nextId == i then Birth(e) else NotIssued
                  case Pending => FromVerdict(Verdict(e, i))
                  case Settled(outcome) => status)
  {
    match e
    case Request(signal, writeFails) =>
      var t := Register(s, signal);
      RegisterValid(s, signal);
      var born := if status.NotIssued? && s.nextId == i then Pending else status;
      assert Shows(t, i, born);
      SettleShows(t, s.nextId, Cancelled, i, born);
      SettleShows(t, s.nextId, TransportError, i, born);
    case Message(_, _, isError) =>
      if Answers(e).Some? {
        SettleShows(s, Answers(e).value, if isError then RemoteError else Resolved, i, status);
      }
    case Timeout(id) => SettleShows(s, id, TimedOut, i, status);
    case Abort(id) => SettleShows(s, id, Cancelled, i, status);
    case Fail => SettleAllShows(s, s.pending, TransportError, i, status);
  }

  lemma {:induction false} IdsIssued(events: seq<Event>)
    ensures Run(events).nextId == Requests(events) + 1
  {
    if events != [] {
      var s, e := Run(events[..|events| - 1]), events[|events| - 1];
      IdsIssued(events[..|events| - 1]);
      SettleAllKeepsIds(s, s.pending, TransportError);
    }
  }

  lemma {:induction false} SettleAllKeepsIds(s: State, ids: seq<nat>, outcome: Outcome)
    ensures SettleAll(s, ids, outcome).nextId == s.nextId
    decreases |ids|
  {
    if ids != [] {
      SettleAllKeepsIds(Settle(s, ids[0], outcome), ids[1..], outcome);
    }
  }

  /**
    In every run each request is where its own history puts it: pending until the first
    verdict after its birth, then settled with that verdict for good. Later responses,
    timeouts, aborts and failures change nothing, nor does anything about other requests.
   */
  lemma {:induction false} FirstVerdictSettles(events: seq<Event>, i: nat)
    ensures Shows(Run(events), i, StatusOf(events, i))
  {
    if events != [] {
      var before, e := events[..|events| - 1], events[|events| - 1];
      FirstVerdictSettles(before, i);
      EveryRunIsValid(before);
      IdsIssued(before);
      StepShows(Run(before), e, i, StatusOf(before, i));
    }
  }

  /** The view is exact: no run shows a request in two ways. */
  lemma OneStatus(events: seq<Event>, i: nat, status: Status)
    ensures Shows(Run(events), i, status) <==> status == StatusOf(events, i)
  {
    FirstVerdictSettles(events, i);
    EveryRunIsValid(events);
    var s := Run(events);
    OnceSplit(s.pending, LogIds(s.log));
    forall o: Outcome | Settlement(i, o) in s.log ensures i in LogIds(s.log) {
      var k :| 0 <= k < |s.log| && s.log[k] == Settlement(i, o);
      assert LogIds(s.log)[k] == i;
    }
    forall o, o': Outcome | Settlement(i, o) in s.log && Settlement(i, o') in s.log ensures o == o' {
      var k :| 0 <= k < |s.log| && s.log[k] == Settlement(i, o);
      var k' :| 0 <= k' < |s.log| && s.log[k'] == Settlement(i, o');
      assert LogIds(s.log)[k] == i == LogIds(s.log)[k'];
    }
  }
}
