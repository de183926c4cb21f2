/**
  The content exposures of one scope: append-once records by source tool call, a revision that
  counts them, and a bounded, ordered prefix kept by binary insertion.

  The order of two records (`localeCompare` of time, then of id) is a parameter `Le`.
 */
module ContentExposures {
  import opened Basics

  datatype Integrity = OrganizationManaged | VerifiedPublisher | AuthenticatedExternal | PublicUntrusted | Unknown

  datatype Exposure = Exposure(
    sourceToolCallId: string,
    observedAt: string,
    integrity: Integrity,
    sourceId: Option<string>,
    policyVersionHash: string)

  type Order = (Exposure, Exposure) -> bool

  ghost predicate TotalPreorder(le: Order) {
    && (forall x, y :: le(x, y) || le(y, x))
    && (forall x, y, z | le(x, y) && le(y, z) :: le(x, z))
  }

  const MAX_PREFIX: nat := 1001

  // ------------------------------------------------------------ ordered insertion

  ghost predicate Ordered(le: Order, s: seq<Exposure>) {
    forall i, j | 0 <= i < j < |s| :: le(s[i], s[j])
  }

  /** After every record that is not greater. */
  function Insert(le: Order, s: seq<Exposure>, r: Exposure): (t: seq<Exposure>)
    ensures |t| == |s| + 1
  {
    if s == [] then [r] else if le(s[0], r) then [s[0]] + Insert(le, s[1..], r) else [r] + s
  }

  function Sort(le: Order, history: seq<Exposure>): (t: seq<Exposure>)
    ensures |t| == |history|
  {
    if history == [] then [] else Insert(le, Sort(le, history[..|history| - 1]), history[|history| - 1])
  }

  function Take(s: seq<Exposure>, n: nat): seq<Exposure> {
    if |s| <= n then s else s[..n]
  }

  /** The insertion point: everything before it is not greater, everything from it on is. */
  ghost predicate Splits(le: Order, s: seq<Exposure>, r: Exposure, k: nat) {
    && k <= |s|
    && (forall i | 0 <= i < k :: le(s[i], r))
    && (forall i | k <= i < |s| :: !le(s[i], r))
  }

  lemma {:induction false} InsertAt(le: Order, s: seq<Exposure>, r: Exposure, k: nat)
    requires Splits(le, s, r, k)
    ensures Insert(le, s, r) == s[..k] + [r] + s[k..]
  {
    if k == 0 {
      assert s[..0] + [r] + s[0..] == [r] + s;
    } else {
      InsertAt(le, s[1..], r, k - 1);
      assert s[..k] == [s[0]] + s[1..][..k - 1];
      assert s[1..][k - 1..] == s[k..];
    }
  }

  lemma {:induction false} SplitExists(le: Order, s: seq<Exposure>, r: Exposure) returns (k: nat)
    requires TotalPreorder(le) && Ordered(le, s)
    ensures Splits(le, s, r, k)
  {
    var n := |s| - 1;
    k := |s|;
    if s != [] && !le(s[n], r) {
      k := SplitExists(le, s[..n], r);
      forall i | 0 <= i < |s| ensures le(s[i], r) == (i < k) {
        assert i < n ==> s[i] == s[..n][i];
      }
    }
  }

  lemma InsertOrdered(le: Order, s: seq<Exposure>, r: Exposure)
    requires TotalPreorder(le) && Ordered(le, s)
    ensures Ordered(le, Insert(le, s, r))
  {
    var k := SplitExists(le, s, r);
    InsertAt(le, s, r, k);
    var t := s[..k] + [r] + s[k..];
    forall i, j | 0 <= i < j < |t| ensures le(t[i], t[j]) {
      var x := if i < k then s[i] else if i == k then r else s[i - 1];
      var y := if j < k then s[j] else if j == k then r else s[j - 1];
      assert t[i] == x && t[j] == y;
      assert le(x, y) || le(y, x);
    }
  }

  lemma {:induction false} InsertKeeps(le: Order, s: seq<Exposure>, r: Exposure)
    ensures multiset(Insert(le, s, r)) == multiset(s) + multiset{r}
  {
    if s != [] {
      assert s == [s[0]] + s[1..];
      if le(s[0], r) {
        InsertKeeps(le, s[1..], r);
      }
    }
  }

  lemma {:induction false} SortOrders(le: Order, history: seq<Exposure>)
    requires TotalPreorder(le)
    ensures Ordered(le, Sort(le, history))
    ensures multiset(Sort(le, history)) == multiset(history)
  {
    if history != [] {
      var n := |history| - 1;
      SortOrders(le, history[..n]);
      InsertOrdered(le, Sort(le, history[..n]), history[n]);
      InsertKeeps(le, Sort(le, history[..n]), history[n]);
      assert history == history[..n] + [history[n]];
    }
  }

  /** Inserting into the kept prefix and cutting it is the same as cutting the full insertion. */
  lemma PrefixInsert(le: Order, s: seq<Exposure>, r: Exposure, n: nat)
    requires TotalPreorder(le) && Ordered(le, s)
    ensures Take(Insert(le, Take(s, n), r), n) == Take(Insert(le, s, r), n)
  {
    var k := SplitExists(le, s, r);
    InsertAt(le, s, r, k);
    var p := Take(s, n);
    if |s| > n {
      var j := if k <= n then k else n;
      assert Splits(le, p, r, j);
      InsertAt(le, p, r, j);
      assert Take(p[..j] + [r] + p[j..], n) == Take(s[..k] + [r] + s[k..], n);
    }
  }

  // ------------------------------------------------------------ the scope

  datatype Recorded = Created | Replay | Conflict

  predicate SameEvidence(a: Exposure, b: Exposure) {
    a.integrity == b.integrity && a.sourceId == b.sourceId && a.policyVersionHash == b.policyVersionHash
  }

  /** What the history of created records says about recording `r` now. */
  function Verdict(history: seq<Exposure>, r: Exposure): Recorded {
    if history == [] then Created
    else if history[0].sourceToolCallId != r.sourceToolCallId then Verdict(history[1..], r)
    else if SameEvidence(history[0], r) then Replay
    else Conflict
  }

  function Record(history: seq<Exposure>, r: Exposure): seq<Exposure> {
    if Verdict(history, r) == Created then history + [r] else history
  }

  datatype Listing = Listing(overflow: bool, records: seq<Exposure>, revision: int)

  function ClampLimit(limit: int): nat {
    if limit < 1 then 1 else if limit > 1000 then 1000 else limit
  }

  /** The least records first, as many as asked for, and whether there are more. */
  function List(le: Order, history: seq<Exposure>, limit: int): Listing {
    Listing(|history| > ClampLimit(limit), Take(Sort(le, history), ClampLimit(limit)), |history|)
  }

  class ExposureScope {
    const le: Order
    var records: map<string, Exposure>
    var orderedPrefix: seq<Exposure>
    var revision: nat
    ghost var history: seq<Exposure>

    ghost predicate Valid()
      reads this
    {
      && TotalPreorder(le)
      && revision == |history|
      && orderedPrefix == Take(Sort(le, history), MAX_PREFIX)
      && (forall r | r in history :: r.sourceToolCallId in records)
      && (forall id | id in records :: records[id] in history && records[id].sourceToolCallId == id)
      && OncePerSource(history)
    }

    constructor (le: Order)
      requires TotalPreorder(le)
      ensures Valid() && history == [] && this.le == le
    {
      this.le, records, orderedPrefix, revision, history := le, map[], [], 0, [];
    }

    method RecordContentExposure(r: Exposure) returns (outcome: Recorded)
      requires Valid()
      modifies this
      ensures Valid()
      ensures outcome == Verdict(old(history), r) && history == Record(old(history), r)
    {
      VerdictMeaning(history, r);
      if r.sourceToolCallId in records {
        var current := records[r.sourceToolCallId];
        return if SameEvidence(current, r) then Replay else Conflict;
      }
      SortOrders(le, history);
      ghost var before := history;
      records := records[r.sourceToolCallId := r];
      history := history + [r];
      revision := revision + 1;
      PrefixInsert(le, Sort(le, before), r, MAX_PREFIX);
      assert history[..|history| - 1] == before;
      InsertIntoBoundedPrefix(r);
      return Created;
    }

    /** Binary search for the insertion point, then the splice, then the cut. */
    method InsertIntoBoundedPrefix(r: Exposure)
      requires TotalPreorder(le) && Ordered(le, orderedPrefix) && |orderedPrefix| <= MAX_PREFIX
      modifies this`orderedPrefix
      ensures orderedPrefix == Take(Insert(le, old(orderedPrefix), r), MAX_PREFIX)
    {
      var low, high := 0, |orderedPrefix|;
      while low < high
        invariant 0 <= low <= high <= |orderedPrefix|
        invariant forall i | 0 <= i < low :: le(orderedPrefix[i], r)
        invariant forall i | high <= i < |orderedPrefix| :: !le(orderedPrefix[i], r)
        decreases high - low
      {
        var middle := (low + high) / 2;
        if le(orderedPrefix[middle], r) {
          low := middle + 1;
        } else {
          high := middle;
        }
      }
      InsertAt(le, orderedPrefix, r, low);
      if low >= MAX_PREFIX {
        assert Take(Insert(le, orderedPrefix, r), MAX_PREFIX) == orderedPrefix;
        return;
      }
      orderedPrefix := orderedPrefix[..low] + [r] + orderedPrefix[low..];
      if |orderedPrefix| > MAX_PREFIX {
        orderedPrefix := orderedPrefix[..|orderedPrefix| - 1];
      }
    }

    method ListContentExposures(limit: int) returns (l: Listing)
      requires Valid()
      ensures l == List(le, history, limit)
    {
      var n := ClampLimit(limit);
      var candidates := Take(orderedPrefix, n + 1);
      l := Listing(revision > n, Take(candidates, n), revision);
    }
  }

  ghost predicate OncePerSource(history: seq<Exposure>) {
    forall i, j | 0 <= i < j < |history| :: history[i].sourceToolCallId != history[j].sourceToolCallId
  }

  /** A tool call is recorded once: a second record of it is a replay or a conflict, and changes nothing. */
  lemma {:induction false} VerdictMeaning(history: seq<Exposure>, r: Exposure)
    requires OncePerSource(history)
    ensures Verdict(history, r) == Created <==> forall x | x in history :: x.sourceToolCallId != r.sourceToolCallId
    ensures forall x | x in history && x.sourceToolCallId == r.sourceToolCallId ::
              Verdict(history, r) == if SameEvidence(x, r) then Replay else Conflict
  {
    if history != [] {
      VerdictMeaning(history[1..], r);
      assert history == [history[0]] + history[1..];
      forall x | x in history[1..] ensures x.sourceToolCallId != history[0].sourceToolCallId {
        var i :| 0 <= i < |history| - 1 && history[1..][i] == x;
        assert history[i + 1] == x;
      }
    }
  }

  /** Histories only grow, so a revision names one state of the scope. */
  lemma {:induction false} RevisionNamesState(history: seq<Exposure>, more: seq<Exposure>)
    ensures var later := RecordAll(history, more);
            history <= later && (|later| == |history| ==> later == history)
    decreases |more|
  {
    if more != [] {
      RevisionNamesState(history, more[..|more| - 1]);
    }
  }

  function RecordAll(history: seq<Exposure>, more: seq<Exposure>): seq<Exposure> {
    if more == [] then history else Record(RecordAll(history, more[..|more| - 1]), more[|more| - 1])
  }
}
