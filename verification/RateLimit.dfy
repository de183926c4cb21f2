/** The fixed-window rate limiter, and what it means for any sliding window. */
module RateLimit {
  import opened Basics

  datatype Config = Config(max: int, windowMs: int) {
    /** The first request of a bucket is not compared with `max`, so a bucket admits at least one. */
    function Cap(): nat { if max < 1 then 1 else max }
  }

  datatype Bucket = Bucket(count: nat, resetAt: int)

  datatype Request = Request(now: int, key: string)

  /** Whether the request is admitted, and its bucket afterwards. */
  function Hit(c: Config, bucket: Option<Bucket>, now: int): (Bucket, bool) {
    if bucket.None? || bucket.value.resetAt <= now then (Bucket(1, now + c.windowMs), true)
    else (bucket.value.(count := bucket.value.count + 1), bucket.value.count + 1 <= c.max)
  }

  function Lookup(buckets: map<string, Bucket>, key: string): Option<Bucket> {
    if key in buckets then Some(buckets[key]) else None
  }

  class RateLimiter {
    const config: Config
    var buckets: map<string, Bucket>

    constructor (config: Config)
      ensures this.config == config && buckets == map[]
    {
      this.config := config;
      buckets := map[];
    }

    /** `enforceRateLimit`; `admitted` is false where it throws. */
    method Enforce(r: Request) returns (admitted: bool)
      modifies this
      ensures var (bucket, ok) := Hit(config, Lookup(old(buckets), r.key), r.now);
              admitted == ok && buckets == old(buckets)[r.key := bucket]
    {
      if r.key !in buckets || buckets[r.key].resetAt <= r.now {
        buckets := buckets[r.key := Bucket(1, r.now + config.windowMs)];
        return true;
      }
      var bucket := buckets[r.key];
      bucket := bucket.(count := bucket.count + 1);
      buckets := buckets[r.key := bucket];
      return bucket.count <= config.max;
    }
  }

  // ------------------------------------------------------------ histories

  function Run(c: Config, history: seq<Request>): map<string, Bucket> {
    if history == [] then map[]
    else
      var before, r := Run(c, history[..|history| - 1]), history[|history| - 1];
      before[r.key := Hit(c, Lookup(before, r.key), r.now).0]
  }

  predicate Admitted(c: Config, before: seq<Request>, r: Request) {
    Hit(c, Lookup(Run(c, before), r.key), r.now).1
  }

  ghost predicate Monotone(history: seq<Request>) {
    forall i, j | 0 <= i <= j < |history| :: history[i].now <= history[j].now
  }

  datatype Admission = Admission(time: int, start: int)

  /** The admitted requests of one key, each with the start of its bucket. */
  function Admissions(c: Config, history: seq<Request>, key: string): seq<Admission> {
    if history == [] then []
    else
      var before, r := history[..|history| - 1], history[|history| - 1];
      Admissions(c, before, key)
      + if r.key == key && Admitted(c, before, r)
        then [Admission(r.now, Hit(c, Lookup(Run(c, before), key), r.now).0.resetAt - c.windowMs)] else []
  }

  // ------------------------------------------------------------ the shape of one key's admissions

  ghost predicate InBucket(c: Config, a: Admission) {
    a.start <= a.time < a.start + c.windowMs
  }

  /** Buckets do not overlap, each opens with its first request and admits at most `Cap()`. */
  ghost predicate Shaped(c: Config, a: seq<Admission>) {
    forall i: nat | i < |a| :: ShapedAt(c, a, i)
  }

  ghost predicate ShapedAt(c: Config, a: seq<Admission>, i: nat)
    requires i < |a|
  {
    && InBucket(c, a[i])
    && (i > 0 ==> a[i - 1].start == a[i].start || a[i - 1].start + c.windowMs <= a[i].start)
    && (Opens(a, i) ==> a[i].time == a[i].start)
    && (i >= c.Cap() ==> a[i - c.Cap()].start != a[i].start)
  }

  ghost predicate Opens(a: seq<Admission>, i: nat)
    requires i < |a|
  {
    i == 0 || a[i - 1].start != a[i].start
  }

  function Min(x: int, y: int): int { if x < y then x else y }

  /** The stored bucket is that of the last admissions, and it counts them up to the cap. */
  ghost predicate Current(c: Config, bucket: Option<Bucket>, a: seq<Admission>, now: int) {
    match bucket
    case None => a == []
    case Some(b) =>
      var n := |a| - Min(b.count, c.Cap());
      && b.count >= 1
      && 0 <= n < |a|
      && b.resetAt - c.windowMs <= now
      && (n > 0 ==> a[n - 1].start + c.windowMs <= b.resetAt - c.windowMs)
      && (forall i | n <= i < |a| :: a[i].start == b.resetAt - c.windowMs)
  }

  lemma ShapeExtended(c: Config, a: seq<Admission>, x: Admission)
    requires Shaped(c, a) && ShapedAt(c, a + [x], |a|)
    ensures Shaped(c, a + [x])
  {
    forall i: nat | i < |a| + 1 ensures ShapedAt(c, a + [x], i) {
      if i < |a| {
        assert ShapedAt(c, a, i);
      }
    }
  }

  function Grown(c: Config, bucket: Option<Bucket>, a: seq<Admission>, now: int): seq<Admission> {
    var (b, ok) := Hit(c, bucket, now);
    if ok then a + [Admission(now, b.resetAt - c.windowMs)] else a
  }

  lemma HitKeepsShape(c: Config, bucket: Option<Bucket>, a: seq<Admission>, now: int)
    requires c.windowMs > 0 && Shaped(c, a) && Current(c, bucket, a, now)
    ensures Shaped(c, Grown(c, bucket, a, now))
  {
    var (b, ok) := Hit(c, bucket, now);
    if ok {
      var same := if b.count == 1 then 0 else bucket.value.count;
      StartsGrow(c, a, |a| - c.Cap(), |a| - same - 1);
      ShapeExtended(c, a, Admission(now, b.resetAt - c.windowMs));
    }
  }

  lemma {:induction false} StartsGrow(c: Config, a: seq<Admission>, i: int, j: int)
    requires c.windowMs > 0 && Shaped(c, a)
    requires i <= j < |a|
    ensures i >= 0 ==> a[i].start == a[j].start || a[i].start + c.windowMs <= a[j].start
    decreases j - i
  {
    if 0 <= i < j {
      StartsGrow(c, a, i, j - 1);
      assert ShapedAt(c, a, j);
    }
  }

  /** A bucket is over after `Cap()` admissions. */
  lemma NextBucket(c: Config, a: seq<Admission>, i: nat, j: nat)
    requires c.windowMs > 0 && Shaped(c, a)
    requires i + c.Cap() <= j < |a|
    ensures a[i].start + c.windowMs <= a[j].start
  {
    StartsGrow(c, a, i, j - c.Cap());
    StartsGrow(c, a, j - c.Cap(), j);
    assert ShapedAt(c, a, j);
  }

  lemma HitKeepsCurrent(c: Config, bucket: Option<Bucket>, a: seq<Admission>, now: int)
    requires c.windowMs > 0 && Current(c, bucket, a, now)
    ensures Current(c, Some(Hit(c, bucket, now).0), Grown(c, bucket, a, now), now)
  {
  }

  /** One request touches one key only. */
  lemma OneKeyStep(c: Config, history: seq<Request>, key: string)
    requires history != []
    ensures var before, r := history[..|history| - 1], history[|history| - 1];
            var bucket, a := Lookup(Run(c, before), key), Admissions(c, before, key);
            if r.key == key then
              && Lookup(Run(c, history), key) == Some(Hit(c, bucket, r.now).0)
              && Admissions(c, history, key) == Grown(c, bucket, a, r.now)
            else
              Lookup(Run(c, history), key) == bucket && Admissions(c, history, key) == a
  {
    var a := Admissions(c, history[..|history| - 1], key);
    assert a + [] == a;
  }

  lemma {:induction false} HistoryShape(c: Config, history: seq<Request>, key: string, now: int)
    requires c.windowMs > 0 && Monotone(history)
    requires history != [] ==> history[|history| - 1].now <= now
    ensures Shaped(c, Admissions(c, history, key))
    ensures Current(c, Lookup(Run(c, history), key), Admissions(c, history, key), now)
  {
    if history != [] {
      var before, r := history[..|history| - 1], history[|history| - 1];
      assert before != [] ==> before[|before| - 1] == history[|before| - 1];
      HistoryShape(c, before, key, r.now);
      OneKeyStep(c, history, key);
      var bucket, a := Lookup(Run(c, before), key), Admissions(c, before, key);
      HitKeepsShape(c, bucket, a, r.now);
      HitKeepsCurrent(c, bucket, a, r.now);
    }
  }

  /** Two admissions that are `2 * Cap() - 1` apart in number are a window apart in time. */
  lemma FarApart(c: Config, a: seq<Admission>, i: nat, j: nat)
    requires c.windowMs > 0 && Shaped(c, a)
    requires i + 2 * c.Cap() - 1 <= j < |a|
    ensures a[i].time + c.windowMs <= a[j].time
  {
    var cap := c.Cap();
    assert ShapedAt(c, a, i) && ShapedAt(c, a, j);
    if Opens(a, i) {
      NextBucket(c, a, i, j);
    } else {
      NextBucket(c, a, i - 1, i - 1 + cap);
      NextBucket(c, a, i - 1 + cap, j);
    }
  }

  function Within(a: seq<Admission>, from: int, length: int): set<int> {
    set i | 0 <= i < |a| && from <= a[i].time < from + length
  }

  lemma {:induction false} RangeSize(s: set<int>, lo: int, n: nat)
    requires forall i | i in s :: lo <= i < lo + n
    ensures |s| <= n
  {
    if n > 0 {
      var rest := s - {lo + n - 1};
      RangeSize(rest, lo, n - 1);
      assert |s| <= |rest| + 1;
    } else {
      assert forall i :: i !in s;
    }
  }

  lemma {:induction false} Earliest(s: set<int>, lo: int, x: int) returns (m: int)
    requires x in s && lo <= x && forall i | i in s :: lo <= i
    ensures m in s && forall i | i in s :: m <= i
    decreases x - lo
  {
    if lo in s {
      m := lo;
    } else {
      m := Earliest(s, lo + 1, x);
    }
  }

  /**
    Over every history with a monotone clock, one key is admitted fewer than `2 * Cap()` times
    in any half-open interval of the length of the window.
   */
  lemma SlidingBound(c: Config, history: seq<Request>, key: string, from: int)
    requires Monotone(history)
    ensures |Within(Admissions(c, history, key), from, c.windowMs)| <= 2 * c.Cap() - 1
  {
    var a := Admissions(c, history, key);
    var s := Within(a, from, c.windowMs);
    if x :| x in s {
      var now := if history == [] then 0 else history[|history| - 1].now;
      HistoryShape(c, history, key, now);
      var first := Earliest(s, 0, x);
      forall i | i in s ensures first <= i < first + 2 * c.Cap() - 1 {
        if i >= first + 2 * c.Cap() - 1 {
          FarApart(c, a, first, i);
        }
      }
      RangeSize(s, first, 2 * c.Cap() - 1);
    } else {
      RangeSize(s, 0, 0);
    }
  }

  function SameBucket(a: seq<Admission>, start: int): set<int> {
    set i | 0 <= i < |a| && a[i].start == start
  }

  /** At most `Cap()` requests of a key are admitted by one bucket. */
  lemma BucketBound(c: Config, history: seq<Request>, key: string, start: int)
    requires c.windowMs > 0 && Monotone(history)
    ensures |SameBucket(Admissions(c, history, key), start)| <= c.Cap()
  {
    var a := Admissions(c, history, key);
    var s := SameBucket(a, start);
    if x :| x in s {
      var now := if history == [] then 0 else history[|history| - 1].now;
      HistoryShape(c, history, key, now);
      var first := Earliest(s, 0, x);
      forall i | i in s ensures first <= i < first + c.Cap() {
        if i >= first + c.Cap() {
          NextBucket(c, a, first, i);
        }
      }
      RangeSize(s, first, c.Cap());
    } else {
      RangeSize(s, 0, 0);
    }
  }

  /** No request is turned away before its bucket is full: `Cap()` admissions share its window. */
  lemma RejectedOnlyWhenFull(c: Config, history: seq<Request>, r: Request)
    requires c.windowMs > 0 && Monotone(history + [r])
    requires !Admitted(c, history, r)
    ensures var a := Admissions(c, history, r.key);
            && |a| >= c.Cap()
            && forall i | |a| - c.Cap() <= i < |a| :: r.now - c.windowMs < a[i].time
  {
    assert forall i | 0 <= i < |history| + 1 :: (history + [r])[i] == if i < |history| then history[i] else r;
    if history != [] {
      assert (history + [r])[|history| - 1].now <= (history + [r])[|history|].now;
    }
    HistoryShape(c, history, r.key, r.now);
    var a := Admissions(c, history, r.key);
    forall i | |a| - c.Cap() <= i < |a| ensures r.now - c.windowMs < a[i].time {
      assert ShapedAt(c, a, i);
    }
  }

  ghost predicate Extends(a: seq<Admission>, more: seq<Admission>, n: nat, now: int) {
    && |more| == |a| + n
    && (forall i | 0 <= i < |a| :: more[i] == a[i])
    && (forall i | |a| <= i < |more| :: more[i].time == now)
  }

  lemma AppendedRequest(c: Config, before: seq<Request>, now: int, key: string) returns (history: seq<Request>)
    requires Monotone(before) && forall i | 0 <= i < |before| :: before[i].now <= now
    ensures history == before + [Request(now, key)]
    ensures Monotone(history) && forall i | 0 <= i < |history| :: history[i].now <= now
    ensures var bucket := Lookup(Run(c, before), key);
            && Lookup(Run(c, history), key) == Some(Hit(c, bucket, now).0)
            && Admissions(c, history, key) == Grown(c, bucket, Admissions(c, before, key), now)
  {
    history := before + [Request(now, key)];
    OneKeyStep(c, history, key);
    assert history[..|history| - 1] == before;
  }

  /** `n` requests at one moment for which the bucket still has room are all admitted. */
  lemma {:induction false} Burst(c: Config, before: seq<Request>, b: Bucket, now: int, key: string, n: nat)
    returns (history: seq<Request>)
    requires Monotone(before) && forall i | 0 <= i < |before| :: before[i].now <= now
    requires Lookup(Run(c, before), key) == Some(b) && b.resetAt > now && (n > 0 ==> b.count + n <= c.max)
    ensures Monotone(history) && forall i | 0 <= i < |history| :: history[i].now <= now
    ensures Lookup(Run(c, history), key) == Some(Bucket(b.count + n, b.resetAt))
    ensures Extends(Admissions(c, before, key), Admissions(c, history, key), n, now)
    decreases n
  {
    history := before;
    if n > 0 {
      var shorter := Burst(c, before, b, now, key, n - 1);
      history := AppendedRequest(c, shorter, now, key);
      OneMoreAdmitted(c, Bucket(b.count + n - 1, b.resetAt), Admissions(c, before, key), Admissions(c, shorter,
                      key), n - 1, now);
    }
  }

  /** A bucket with room admits the next request. */
  lemma OneMoreAdmitted(c: Config, b: Bucket, a: seq<Admission>, more: seq<Admission>, n: nat, now: int)
    requires b.resetAt > now && b.count + 1 <= c.max && Extends(a, more, n, now)
    ensures Hit(c, Some(b), now) == (Bucket(b.count + 1, b.resetAt), true)
    ensures Extends(a, Grown(c, Some(b), more, now), n + 1, now)
  {
  }

  /**
    The sliding bound is reached for every cap, once the window has two milliseconds: one
    request, the rest of its bucket in the last millisecond of the window, and a full bucket
    right after it.
   */
  lemma SlidingBoundIsReached(c: Config, key: string) returns (history: seq<Request>)
    requires c.windowMs >= 2
    ensures Monotone(history)
    ensures var a, from := Admissions(c, history, key), c.windowMs - 1;
            && |a| == 2 * c.Cap()
            && forall i | 1 <= i < |a| :: from <= a[i].time < from + c.windowMs
  {
    history := FullWindowAtItsEnd(c, key);
    var w, a := c.windowMs, Admissions(c, history, key);
    history := AppendedRequest(c, history, w, key);
    assert Admissions(c, history, key) == a + [Admission(w, w)];
    history := Burst(c, history, Bucket(1, w + w), w, key, c.Cap() - 1);
  }

  /** One request opens the bucket, and all others of the bucket come in its last millisecond. */
  lemma FullWindowAtItsEnd(c: Config, key: string) returns (history: seq<Request>)
    requires c.windowMs >= 2
    ensures Monotone(history) && forall i | 0 <= i < |history| :: history[i].now < c.windowMs
    ensures Lookup(Run(c, history), key) == Some(Bucket(c.Cap(), c.windowMs))
    ensures var a := Admissions(c, history, key);
            |a| == c.Cap() && forall i | 1 <= i < |a| :: a[i].time == c.windowMs - 1
  {
    history := AppendedRequest(c, [], 0, key);
    history := Burst(c, history, Bucket(1, c.windowMs), c.windowMs - 1, key, c.Cap() - 1);
  }

  /** A window of one millisecond holds one bucket, so there the bound is the cap itself. */
  lemma OneMillisecondWindow(c: Config, history: seq<Request>, key: string, from: int)
    requires c.windowMs == 1 && Monotone(history)
    ensures |Within(Admissions(c, history, key), from, c.windowMs)| <= c.Cap()
  {
    var a := Admissions(c, history, key);
    HistoryShape(c, history, key, if history == [] then 0 else history[|history| - 1].now);
    BucketBound(c, history, key, from);
    var within, bucket := Within(a, from, 1), SameBucket(a, from);
    forall i | i in within ensures i in bucket {
      assert ShapedAt(c, a, i);
    }
    Subset(within, bucket);
  }

  lemma {:induction false} Subset(s: set<int>, t: set<int>)
    requires s <= t
    ensures |s| <= |t|
  {
    if x :| x in s {
      Subset(s - {x}, t - {x});
      assert |s - {x}| == |s| - 1 && |t - {x}| == |t| - 1;
    } else {
      RangeSize(s, 0, 0);
    }
  }
}
