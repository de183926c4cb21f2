/**
  The hash-chained audit log: a queue that serialises appends, an append-once store under it,
  and the verifier that walks the stored chain.

  SHA-256 over the stable JSON text is a parameter that is assumed injective and never empty;
  the clock text is a parameter `Clock` with the two laws of ISO timestamps that matter here.
 */
module AuditChain {
  import opened Basics

  type Hash = string

  /** `fields` are the other hashed fields of an event, each as its JSON text. */
  datatype Event = Event(
    id: string,
    timestamp: string,
    fields: map<string, string>,
    previousEventHash: Option<Hash>,
    eventHash: Option<Hash>)

  /** What `auditEventHash` hashes: everything but the event's own hash. */
  datatype Hashed = Hashed(id: string, timestamp: string, fields: map<string, string>, previousEventHash: Option<Hash>)

  type Hasher = Hashed -> Hash

  function HashInput(e: Event): Hashed {
    Hashed(e.id, e.timestamp, e.fields, e.previousEventHash)
  }

  ghost predicate CollisionFree(hash: Hasher) {
    && (forall x, y | hash(x) == hash(y) :: x == y)
    && (forall x :: hash(x) != "")
  }

  // ------------------------------------------------------------ verification

  predicate Missing(h: Option<Hash>) { h.None? || h.value == "" }

  datatype Reason = PreviousEventHashMismatch | MissingEventHash | EventHashMismatch

  datatype Fault = Fault(eventId: string, index: nat, reason: Reason)

  function PreviousHash(events: seq<Event>, i: nat): Option<Hash>
    requires i < |events|
  {
    if i == 0 then None else events[i - 1].eventHash
  }

  /** What is wrong with the event at `i`, in the words of the report. */
  predicate Faulty(hash: Hasher, events: seq<Event>, f: Fault) {
    && f.index < |events|
    && var e := events[f.index];
       && f.eventId == e.id
       && match f.reason
          case PreviousEventHashMismatch => e.previousEventHash != PreviousHash(events, f.index)
          case MissingEventHash => Missing(e.eventHash)
          case EventHashMismatch => !Missing(e.eventHash) && e.eventHash != Some(hash(HashInput(e)))
  }

  ghost predicate LinkedAt(hash: Hasher, events: seq<Event>, i: nat)
    requires i < |events|
  {
    && events[i].previousEventHash == PreviousHash(events, i)
    && !Missing(events[i].eventHash)
    && events[i].eventHash == Some(hash(HashInput(events[i])))
  }

  /** Every event carries its own hash and the hash of the event before it. */
  ghost predicate Linked(hash: Hasher, events: seq<Event>) {
    forall i: nat | i < |events| :: LinkedAt(hash, events, i)
  }

  datatype Report = Report(
    checked: nat,
    errors: seq<Fault>,
    firstEventHash: Option<Hash>,
    lastEventHash: Option<Hash>,
    valid: bool)

  /** `verifyAuditEvents`: it reports exactly the faults, so it says valid exactly of linked lists. */
  method VerifyAuditEvents(hash: Hasher, events: seq<Event>) returns (r: Report)
    ensures forall f :: f in r.errors <==> Faulty(hash, events, f)
    ensures r.valid <==> Linked(hash, events)
    ensures r.checked == |events|
    ensures events == [] ==> r.firstEventHash == r.lastEventHash == None
    ensures events != [] ==> r.firstEventHash == events[0].eventHash
    ensures events != [] ==> r.lastEventHash == events[|events| - 1].eventHash
  {
    var errors: seq<Fault> := [];
    var previousEventHash: Option<Hash> := None;
    var index := 0;
    while index < |events|
      invariant 0 <= index <= |events|
      invariant previousEventHash == if index == 0 then None else events[index - 1].eventHash
      invariant forall f :: f in errors <==> f.index < index && Faulty(hash, events, f)
    {
      var event := events[index];
      if event.previousEventHash != previousEventHash {
        errors := errors + [Fault(event.id, index, PreviousEventHashMismatch)];
      }
      if Missing(event.eventHash) {
        errors := errors + [Fault(event.id, index, MissingEventHash)];
      } else {
        var expected := hash(HashInput(event));
        if event.eventHash != Some(expected) {
          errors := errors + [Fault(event.id, index, EventHashMismatch)];
        }
      }
      previousEventHash := event.eventHash;
      index := index + 1;
    }
    NoFaultIsLinked(hash, events, errors);
    var last := if events == [] then None else events[|events| - 1].eventHash;
    r := Report(|events|, errors, if events == [] then None else events[0].eventHash, last, errors == []);
  }

  lemma NoFaultIsLinked(hash: Hasher, events: seq<Event>, errors: seq<Fault>)
    requires forall f :: f in errors <==> Faulty(hash, events, f)
    ensures errors == [] <==> Linked(hash, events)
  {
    forall i: nat | i < |events|
      ensures LinkedAt(hash, events, i) <==> forall reason :: Fault(events[i].id, i, reason) !in errors
    {
      assert Fault(events[i].id, i, PreviousEventHashMismatch) in errors <==>
        events[i].previousEventHash != PreviousHash(events, i);
      assert Fault(events[i].id, i, MissingEventHash) in errors <==> Missing(events[i].eventHash);
      assert Fault(events[i].id, i, EventHashMismatch) in errors <==>
        !Missing(events[i].eventHash) && events[i].eventHash != Some(hash(HashInput(events[i])));
    }
    if errors != [] {
      var f := errors[0];
      assert f in errors;
      assert f == Fault(events[f.index].id, f.index, f.reason);
      assert !LinkedAt(hash, events, f.index);
    }
  }

  lemma LinkedPrefix(hash: Hasher, events: seq<Event>, n: nat)
    requires Linked(hash, events) && n <= |events|
    ensures Linked(hash, events[..n])
  {
    forall i: nat | i < n ensures LinkedAt(hash, events[..n], i) {
      assert LinkedAt(hash, events, i);
    }
  }

  /** The hash of the last event commits to the whole history, in number, order and content. */
  lemma {:induction false} HeadCommitsToHistory(hash: Hasher, a: seq<Event>, b: seq<Event>)
    requires CollisionFree(hash)
    requires Linked(hash, a) && Linked(hash, b)
    requires a != [] && b != []
    requires a[|a| - 1].eventHash == b[|b| - 1].eventHash
    ensures a == b
    decreases |a|
  {
    var m, n := |a| - 1, |b| - 1;
    assert LinkedAt(hash, a, m) && LinkedAt(hash, b, n);
    assert HashInput(a[m]) == HashInput(b[n]);
    assert a[m] == b[n];
    if m > 0 {
      assert LinkedAt(hash, a, m - 1);
    }
    if n > 0 {
      assert LinkedAt(hash, b, n - 1);
    }
    if m > 0 && n > 0 {
      LinkedPrefix(hash, a, m);
      LinkedPrefix(hash, b, n);
      HeadCommitsToHistory(hash, a[..m], b[..n]);
    }
    assert a == a[..m] + [a[m]] && b == b[..n] + [b[n]];
  }

  // ------------------------------------------------------------ timestamps

  /** `Date.parse`, finite or not, and `toISOString`, which throws outside the range of dates. */
  datatype Clock = Clock(parse: string -> Option<int>, format: int -> Option<string>)

  ghost predicate IsoClock(c: Clock) {
    && c.parse("") == None
    && forall t :: match c.format(t) case None => true case Some(text) => c.parse(text) == Some(t)
  }

  /** `None` is the `RangeError` after the last representable millisecond. */
  function NextAuditTimestamp(c: Clock, candidate: string, previous: Option<string>): Option<string> {
    if Missing(previous) then Some(candidate)
    else
      var candidateMillis, previousMillis := c.parse(candidate), c.parse(previous.value);
      if previousMillis.None? || (candidateMillis.Some? && candidateMillis.value > previousMillis.value) then
        Some(candidate)
      else
        c.format(previousMillis.value + 1)
  }

  // ------------------------------------------------------------ the store

  datatype ListLimit = AllEvents | Newest(limit: int)

  function Reverse<T>(s: seq<T>): seq<T> {
    if s == [] then [] else Reverse(s[1..]) + [s[0]]
  }

  lemma {:induction false} ReverseAppend<T>(a: seq<T>, b: seq<T>)
    ensures Reverse(a + b) == Reverse(b) + Reverse(a)
  {
    if a == [] {
      assert a + b == b;
      assert Reverse(b) + [] == Reverse(b);
    } else {
      assert (a + b)[1..] == a[1..] + b;
      ReverseAppend(a[1..], b);
    }
  }

  lemma {:induction false} ReverseTwice<T>(s: seq<T>)
    ensures Reverse(Reverse(s)) == s
  {
    if s != [] {
      ReverseAppend(Reverse(s[1..]), [s[0]]);
      ReverseTwice(s[1..]);
      assert Reverse([s[0]]) == [s[0]];
    }
  }

  /** The last `n` events, at least one; all of them when there are fewer. */
  function Window(log: seq<Event>, limit: ListLimit): seq<Event> {
    match limit
    case AllEvents => log
    case Newest(limit) =>
      var n := if limit < 1 then 1 else limit;
      if n >= |log| then log else log[|log| - n..]
  }

  function AppendOnce(log: seq<Event>, ids: set<string>, e: Event): seq<Event> {
    if e.id in ids then log else log + [e]
  }

  class JsonlAuditStore {
    var log: seq<Event>
    var eventIds: set<string>

    /** Opening a file: the ids of its events, the empty one left out. */
    constructor (existing: seq<Event>)
      ensures log == existing && eventIds == KnownIds(existing)
    {
      log := existing;
      eventIds := {};
      new;
      var i := 0;
      while i < |existing|
        invariant 0 <= i <= |existing|
        invariant log == existing
        invariant eventIds == KnownIds(existing[..i])
      {
        assert existing[..i + 1] == existing[..i] + [existing[i]];
        if existing[i].id != "" {
          eventIds := eventIds + {existing[i].id};
        }
        i := i + 1;
      }
      assert existing[..|existing|] == existing;
    }

    /** `fails` is a write that throws before anything is on disk. */
    method Append(e: Event, fails: bool) returns (thrown: bool)
      modifies this
      ensures thrown == (fails && e.id !in old(eventIds))
      ensures log == if fails then old(log) else AppendOnce(old(log), old(eventIds), e)
      ensures eventIds == if fails then old(eventIds) else old(eventIds) + {e.id}
    {
      if e.id in eventIds {
        return false;
      }
      if fails {
        return true;
      }
      log := log + [e];
      eventIds := eventIds + {e.id};
      return false;
    }

    /** Newest first. */
    method List(limit: ListLimit) returns (events: seq<Event>)
      ensures events == Reverse(Window(log, limit))
    {
      events := Reverse(Window(log, limit));
    }
  }

  function KnownIds(log: seq<Event>): set<string> {
    set e | e in log && e.id != "" :: e.id
  }

  // ------------------------------------------------------------ the append queue

  /** The store, the ids it knows, the queued appends, and the one whose chained event is built. */
  datatype State = State(log: seq<Event>, ids: set<string>, queue: seq<Event>, chained: Option<Event>)

  const EMPTY: State := State([], {}, [], None)

  /** `appendChained` up to the inner append: `None` when the timestamp cannot be formatted. */
  function Chain(hash: Hasher, c: Clock, log: seq<Event>, e: Event): Option<Event> {
    var previous := if log == [] then None else Some(log[|log| - 1]);
    var timestamp :- NextAuditTimestamp(c, e.timestamp, if previous.None? then None else Some(previous.value.timestamp));
    var linked := e.(previousEventHash := if previous.None? then None else previous.value.eventHash,
                     timestamp := timestamp);
    Some(linked.(eventHash := Some(hash(HashInput(linked)))))
  }

  /**
    `Append` is the call, which only queues. `Read` starts the append at the head of the queue
    once nothing is in flight; `Write` finishes it. A crash loses the queue and reopens the file.
   */
  datatype Step = Append(event: Event) | Read | Write(fails: bool) | Crash

  function Next(hash: Hasher, c: Clock, s: State, step: Step): State {
    match step
    case Append(e) => s.(queue := s.queue + [e])
    case Read =>
      if s.queue == [] || s.chained.Some? then s
      else s.(queue := s.queue[1..], chained := Chain(hash, c, s.log, s.queue[0]))
    case Write(fails) =>
      if s.chained.None? then s
      else if fails then s.(chained := None)
      else
        var e := s.chained.value;
        s.(log := AppendOnce(s.log, s.ids, e), ids := s.ids + {e.id}, chained := None)
    case Crash => State(s.log, KnownIds(s.log), [], None)
  }

  function Run(hash: Hasher, c: Clock, steps: seq<Step>): State {
    if steps == [] then EMPTY
    else Next(hash, c, Run(hash, c, steps[..|steps| - 1]), steps[|steps| - 1])
  }

  class ChainedAuditStore {
    const hash: Hasher
    const clock: Clock
    const inner: JsonlAuditStore
    var appendQueue: seq<Event>
    var chained: Option<Event>

    constructor (hash: Hasher, clock: Clock, inner: JsonlAuditStore)
      ensures this.hash == hash && this.clock == clock && this.inner == inner
      ensures appendQueue == [] && chained == None
    {
      this.hash, this.clock, this.inner := hash, clock, inner;
      appendQueue, chained := [], None;
    }

    ghost function View(): State
      reads this, inner
    {
      State(inner.log, inner.eventIds, appendQueue, chained)
    }

    method Enqueue(event: Event)
      modifies this
      ensures View() == Next(hash, clock, old(View()), Append(event))
    {
      appendQueue := appendQueue + [event];
    }

    /** The first await of `appendChained`, run when the promise before it has settled. */
    method StartNext()
      modifies this
      ensures View() == Next(hash, clock, old(View()), Read)
    {
      if appendQueue == [] || chained.Some? {
        return;
      }
      var event := appendQueue[0];
      appendQueue := appendQueue[1..];
      var newest := inner.List(Newest(1));
      NewestIsLast(inner.log);
      var previous := if newest == [] then None else Some(newest[0]);
      var stamp := NextAuditTimestamp(
        clock, event.timestamp, if previous.None? then None else Some(previous.value.timestamp));
      if stamp.None? {
        chained := None;
        return;
      }
      var linked := event.(
        previousEventHash := if previous.None? then None else previous.value.eventHash,
        timestamp := stamp.value);
      chained := Some(linked.(eventHash := Some(hash(HashInput(linked)))));
    }

    /** The inner append; the queue goes on whether it throws or not. */
    method FinishNext(fails: bool)
      requires chained.Some?
      modifies this, inner
      ensures View() == Next(hash, clock, old(View()), Write(fails))
    {
      var thrown := inner.Append(chained.value, fails);
      chained := None;
    }
  }

  lemma NewestIsLast(log: seq<Event>)
    ensures Reverse(Window(log, Newest(1))) == if log == [] then [] else [log[|log| - 1]]
  {
    var w := Window(log, Newest(1));
    if log != [] {
      assert w == [log[|log| - 1]];
      assert Reverse(w) == [w[0]];
    }
  }

  // ------------------------------------------------------------ every run

  ghost predicate IncreasesAt(c: Clock, log: seq<Event>, i: nat)
    requires 0 < i < |log|
  {
    match (c.parse(log[i - 1].timestamp), c.parse(log[i].timestamp))
    case (None, _) => true
    case (Some(t), Some(u)) => t < u
    case (Some(_), None) => false
  }

  ghost predicate OnceIds(log: seq<Event>) {
    forall i, j | 0 <= i < j < |log| && log[i].id != "" :: log[i].id != log[j].id
  }

  /** The log is linked, keeps every id once, and never goes back in time once a time is readable. */
  ghost predicate Sound(hash: Hasher, c: Clock, s: State) {
    && Linked(hash, s.log)
    && OnceIds(s.log)
    && KnownIds(s.log) <= s.ids
    && (forall i: nat | 0 < i < |s.log| :: IncreasesAt(c, s.log, i))
    && (s.chained.Some? ==> Follows(hash, c, s.log, s.chained.value))
  }

  /** The built event extends the log as it is now: nothing was appended since it was read. */
  ghost predicate Follows(hash: Hasher, c: Clock, log: seq<Event>, e: Event) {
    LinkedAt(hash, log + [e], |log|) && (log != [] ==> IncreasesAt(c, log + [e], |log|))
  }

  lemma ChainFollows(hash: Hasher, c: Clock, log: seq<Event>, e: Event)
    requires CollisionFree(hash) && IsoClock(c)
    ensures Chain(hash, c, log, e).Some? ==> Follows(hash, c, log, Chain(hash, c, log, e).value)
  {
    var chained := Chain(hash, c, log, e);
    if log != [] && chained.Some? {
      var previous := log[|log| - 1].timestamp;
      var p := c.parse(previous);
      if p.Some? && chained.value.timestamp != e.timestamp {
        assert c.format(p.value + 1) == Some(chained.value.timestamp);
      }
    }
  }

  lemma AppendSound(hash: Hasher, c: Clock, s: State)
    requires Sound(hash, c, s) && s.chained.Some?
    ensures Sound(hash, c, Next(hash, c, s, Write(false)))
  {
    var e := s.chained.value;
    var t := Next(hash, c, s, Write(false));
    if e.id !in s.ids {
      assert t.log == s.log + [e];
      forall i: nat | i < |t.log| ensures LinkedAt(hash, t.log, i) {
        if i < |s.log| {
          assert LinkedAt(hash, s.log, i);
        }
      }
      forall i: nat | 0 < i < |t.log| ensures IncreasesAt(c, t.log, i) {
        if i < |s.log| {
          assert IncreasesAt(c, s.log, i);
        }
      }
      forall i, j | 0 <= i < j < |t.log| && t.log[i].id != "" ensures t.log[i].id != t.log[j].id {
        assert t.log[i] in s.log;
        assert t.log[i].id in KnownIds(s.log);
      }
    }
  }

  lemma {:induction false} EveryRunIsSound(hash: Hasher, c: Clock, steps: seq<Step>)
    requires CollisionFree(hash) && IsoClock(c)
    ensures Sound(hash, c, Run(hash, c, steps))
  {
    if steps != [] {
      var s, step := Run(hash, c, steps[..|steps| - 1]), steps[|steps| - 1];
      EveryRunIsSound(hash, c, steps[..|steps| - 1]);
      if step.Read? && s.queue != [] {
        ChainFollows(hash, c, s.log, s.queue[0]);
      } else if step == Write(false) && s.chained.Some? {
        AppendSound(hash, c, s);
      }
    }
  }

  // ------------------------------------------------------------ order of time

  ghost predicate StrictlyIncreasing(c: Clock, log: seq<Event>) {
    && (forall i | 0 <= i < |log| :: c.parse(log[i].timestamp).Some?)
    && (forall i, j | 0 <= i < j < |log| ::
          TimeOf(c, log[i]) < TimeOf(c, log[j]))
  }

  function TimeOf(c: Clock, e: Event): int {
    c.parse(e.timestamp).GetOr(0)
  }

  lemma {:induction false} IncreasingFromValid(c: Clock, log: seq<Event>)
    requires log != [] && c.parse(log[0].timestamp).Some?
    requires forall i: nat | 0 < i < |log| :: IncreasesAt(c, log, i)
    ensures StrictlyIncreasing(c, log)
    decreases |log|
  {
    var n := |log| - 1;
    if n > 0 {
      var front := log[..n];
      forall i: nat | 0 < i < n ensures IncreasesAt(c, front, i) {
        assert IncreasesAt(c, log, i);
      }
      IncreasingFromValid(c, front);
      assert IncreasesAt(c, log, n);
      assert forall i | 0 <= i < n :: log[i] == front[i];
    }
  }

  /**
    Stored times strictly increase in every run whose first stored time can be read, and only
    then: a log that starts with an unreadable time stays out of order.
   */
  lemma TimesIncreaseIffFirstIsValid(hash: Hasher, c: Clock, steps: seq<Step>)
    requires CollisionFree(hash) && IsoClock(c)
    requires Run(hash, c, steps).log != []
    ensures var log := Run(hash, c, steps).log;
            StrictlyIncreasing(c, log) <==> c.parse(log[0].timestamp).Some?
  {
    EveryRunIsSound(hash, c, steps);
    var log := Run(hash, c, steps).log;
    if c.parse(log[0].timestamp).Some? {
      IncreasingFromValid(c, log);
    }
  }

  ghost predicate SortedByTime(c: Clock, events: seq<Event>) {
    forall i, j | 0 <= i < j < |events| :: TimeOf(c, events[i]) <= TimeOf(c, events[j])
  }

  lemma SameEvents(a: seq<Event>, b: seq<Event>)
    requires multiset(a) == multiset(b)
    ensures |a| == |b| && forall e :: e in a <==> e in b
  {
    assert |multiset(a)| == |a| && |multiset(b)| == |b|;
    forall e ensures e in a <==> e in b {
      assert e in a <==> e in multiset(a);
      assert e in b <==> e in multiset(b);
    }
  }

  lemma LatestIsLast(c: Clock, log: seq<Event>, sorted: seq<Event>)
    requires log != [] && StrictlyIncreasing(c, log)
    requires multiset(sorted) == multiset(log) && SortedByTime(c, sorted)
    ensures |sorted| == |log| && sorted[|log| - 1] == log[|log| - 1]
  {
    SameEvents(sorted, log);
    var n := |log| - 1;
    assert log[n] in sorted && sorted[n] in log;
    var i :| 0 <= i < |sorted| && sorted[i] == log[n];
    var j :| 0 <= j < |log| && log[j] == sorted[n];
    if j < n {
      assert TimeOf(c, log[j]) < TimeOf(c, log[n]);
    }
  }

  lemma DropLast(a: seq<Event>, b: seq<Event>)
    requires multiset(a) == multiset(b) && |a| == |b| > 0
    requires a[|a| - 1] == b[|b| - 1]
    ensures multiset(a[..|a| - 1]) == multiset(b[..|b| - 1])
  {
    var n := |a| - 1;
    assert a == a[..n] + [a[n]] && b == b[..n] + [b[n]];
    assert multiset(a[..n]) == multiset(a) - multiset{a[n]};
    assert multiset(b[..n]) == multiset(b) - multiset{b[n]};
  }

  /** A store that returns the same events sorted by time returns them in append order. */
  lemma {:induction false} TimeOrderIsAppendOrder(c: Clock, log: seq<Event>, sorted: seq<Event>)
    requires StrictlyIncreasing(c, log)
    requires multiset(sorted) == multiset(log) && SortedByTime(c, sorted)
    ensures sorted == log
    decreases |log|
  {
    SameEvents(sorted, log);
    if log != [] {
      var n := |log| - 1;
      LatestIsLast(c, log, sorted);
      DropLast(sorted, log);
      TimeOrderIsAppendOrder(c, log[..n], sorted[..n]);
      assert log == log[..n] + [log[n]] && sorted == sorted[..n] + [sorted[n]];
    }
  }

  // ------------------------------------------------------------ why there is a queue

  /** What two appends that both read before either writes would leave behind. */
  function Unserialised(hash: Hasher, c: Clock, s: State, e: Event, f: Event): Option<seq<Event>> {
    var first :- Chain(hash, c, s.log, e);
    var second :- Chain(hash, c, s.log, f);
    Some(AppendOnce(AppendOnce(s.log, s.ids, first), s.ids + {first.id}, second))
  }

  /** Without the queue any two such appends of new, different events break the chain. */
  lemma WithoutTheQueueTheChainBreaks(hash: Hasher, c: Clock, s: State, e: Event, f: Event)
    requires CollisionFree(hash)
    requires e.id !in s.ids && f.id !in s.ids && e.id != f.id
    requires Linked(hash, s.log)
    requires Unserialised(hash, c, s, e, f).Some?
    ensures !Linked(hash, Unserialised(hash, c, s, e, f).value)
  {
    var log := Unserialised(hash, c, s, e, f).value;
    var n := |s.log|;
    assert log[n + 1].previousEventHash == if n == 0 then None else s.log[n - 1].eventHash;
    if Linked(hash, log) {
      assert LinkedAt(hash, log, n) && LinkedAt(hash, log, n + 1);
      assert log[n].previousEventHash == log[n + 1].previousEventHash == log[n].eventHash;
      if n > 0 {
        assert LinkedAt(hash, log, n - 1);
        assert log[n - 1].eventHash == log[n].eventHash;
        assert HashInput(log[n - 1]) == HashInput(log[n]);
        HashChainsDoNotLoop(hash, log, n);
      }
    }
  }

  lemma {:induction false} HashChainsDoNotLoop(hash: Hasher, log: seq<Event>, n: nat)
    requires CollisionFree(hash) && Linked(hash, log) && 0 < n < |log|
    ensures log[n - 1].eventHash != log[n].eventHash
  {
    assert LinkedAt(hash, log, n) && LinkedAt(hash, log, n - 1);
    if log[n - 1].eventHash == log[n].eventHash {
      assert HashInput(log[n - 1]) == HashInput(log[n]);
      if n > 1 {
        assert LinkedAt(hash, log, n - 2);
        HashChainsDoNotLoop(hash, log, n - 1);
      }
    }
  }

  // ------------------------------------------------------------ verifying a window

  /** `verifyAuditStore`, on the newest `limit` events. */
  method VerifyAuditStore(hash: Hasher, store: JsonlAuditStore, limit: ListLimit) returns (r: Report)
    ensures r.valid <==> Linked(hash, Window(store.log, limit))
  {
    var events := store.List(limit);
    ReverseTwice(Window(store.log, limit));
    r := VerifyAuditEvents(hash, Reverse(events));
  }

  /**
    On an intact log the report is valid if and only if the whole log fits the window: a longer
    log is reported as broken at the first event of the window.
   */
  lemma IntactLogVerifiesIffItFits(hash: Hasher, log: seq<Event>, limit: int)
    requires Linked(hash, log)
    ensures Linked(hash, Window(log, Newest(limit))) <==> |log| <= (if limit < 1 then 1 else limit)
  {
    var n := if limit < 1 then 1 else limit;
    if |log| > n {
      var w := Window(log, Newest(limit));
      assert LinkedAt(hash, log, |log| - n) && LinkedAt(hash, log, |log| - n - 1);
      assert w[0].previousEventHash.Some?;
      assert !LinkedAt(hash, w, 0);
    }
  }

  /** An event as it is stored behind one whose hash is `previous`. */
  function StoredEvent(hash: Hasher, id: string, timestamp: string, previous: Option<Hash>): Event {
    var e := Event(id, timestamp, map[], previous, None);
    e.(eventHash := Some(hash(HashInput(e))))
  }

  /** Two intact events, verified with a limit of one: the report calls the second one broken. */
  lemma TwoEventsDoNotFitOne(hash: Hasher)
    requires CollisionFree(hash)
    ensures var first := StoredEvent(hash, "audit_1", "2026-01-01T00:00:00.000Z", None);
            var second := StoredEvent(hash, "audit_2", "2026-01-01T00:00:00.001Z", first.eventHash);
            var window := Window([first, second], Newest(1));
            && Linked(hash, [first, second])
            && !Linked(hash, window) && Faulty(hash, window, Fault("audit_2", 0, PreviousEventHashMismatch))
  {
    var first := StoredEvent(hash, "audit_1", "2026-01-01T00:00:00.000Z", None);
    var second := StoredEvent(hash, "audit_2", "2026-01-01T00:00:00.001Z", first.eventHash);
    var log := [first, second];
    assert LinkedAt(hash, log, 0) && LinkedAt(hash, log, 1);
    IntactLogVerifiesIffItFits(hash, log, 1);
  }
}
