/**
 The failed-attempt throttle: per key, a count of failures in a window that the first failure
 opens. Times are nanoseconds on a clock that never runs backwards.
 */
module Limiter {
  type Key = string

  datatype Bucket = Bucket(count: nat, windowFrom: int, lastSeen: int)

  type Buckets = map<Key, Bucket>

  // ---------------------------------------------------------------- the operations as functions

  /** The bucket no longer counts: its window has run out. */
  predicate Expired(b: Bucket, window: int, now: int) {
    now - b.windowFrom > window
  }

  predicate Allows(bs: Buckets, key: Key, max: int, window: int, now: int) {
    key !in bs || Expired(bs[key], window, now) || bs[key].count < max
  }

  function Failed(bs: Buckets, key: Key, window: int, now: int): Buckets {
    var b := if key !in bs || Expired(bs[key], window, now) then Bucket(0, now, now) else bs[key];
    bs[key := Bucket(b.count + 1, b.windowFrom, now)]
  }

  predicate Idle(b: Bucket, window: int, now: int) {
    b.lastSeen < now - 10 * window
  }

  function Evicted(bs: Buckets, window: int, now: int): Buckets {
    map k | k in bs && !Idle(bs[k], window, now) :: bs[k]
  }

  class FailureLimiter {
    const max: int
    const window: int
    var buckets: Buckets

    constructor (max: int, window: int)
      ensures this.max == max && this.window == window && buckets == map[]
    {
      this.max, this.window, buckets := max, window, map[];
    }

    method Allow(key: Key, now: int) returns (ok: bool)
      ensures ok == Allows(buckets, key, max, window, now)
    {
      if key !in buckets {
        return true;
      }
      var b := buckets[key];
      if now - b.windowFrom > window {
        return true;
      }
      return b.count < max;
    }

    method RecordFailure(key: Key, now: int)
      modifies this`buckets
      ensures buckets == Failed(old(buckets), key, window, now)
    {
      var b;
      if key !in buckets || now - buckets[key].windowFrom > window {
        b := Bucket(0, now, now);
      } else {
        b := buckets[key];
      }
      buckets := buckets[key := b.(count := b.count + 1, lastSeen := now)];
    }

    method RecordSuccess(key: Key)
      modifies this`buckets
      ensures buckets == old(buckets) - {key}
    {
      buckets := buckets - {key};
    }

    method EvictStale(now: int)
      modifies this`buckets
      ensures buckets == Evicted(old(buckets), window, now)
    {
      var cutoff := now - 10 * window;
      var todo := buckets.Keys;
      while todo != {}
        invariant todo <= buckets.Keys <= old(buckets).Keys
        invariant forall k :: k in old(buckets) ==>
          (k in buckets <==> k in todo || !Idle(old(buckets)[k], window, now))
        invariant forall k :: k in buckets ==> buckets[k] == old(buckets)[k]
        decreases todo
      {
        var key :| key in todo;
        if buckets[key].lastSeen < cutoff {
          buckets := buckets - {key};
        }
        todo := todo - {key};
      }
    }
  }

  // ---------------------------------------------------------------- runs of the limiter

  /** One critical section of the limiter, entered by a request from `key` or by the cleanup. */
  datatype Op = Check(key: Key) | Fail(key: Key) | Succeed(key: Key) | Evict

  datatype Event = Event(at: int, op: Op)

  function After(bs: Buckets, e: Event, window: int): Buckets {
    match e.op
    case Check(_) => bs
    case Fail(k) => Failed(bs, k, window, e.at)
    case Succeed(k) => bs - {k}
    case Evict => Evicted(bs, window, e.at)
  }

  ghost predicate ClockRuns(run: seq<Event>) {
    forall i, j :: 0 <= i < j < |run| ==> run[i].at <= run[j].at
  }

  /** The buckets after the first `n` events of a run that starts with the empty limiter. */
  function BucketsAt(run: seq<Event>, n: nat, window: int): Buckets
    requires n <= |run|
  {
    if n == 0 then map[] else After(BucketsAt(run, n - 1, window), run[n - 1], window)
  }

  /** The clock reads `now` when the first `n` events are over. */
  ghost predicate Now(run: seq<Event>, n: nat, now: int)
    requires n <= |run|
  {
    n > 0 ==> run[n - 1].at <= now
  }

  // ---------------------------------------------------------------- what a key sees

  /** The buckets of a limiter that serves this key alone and never cleans up. */
  function AloneAt(run: seq<Event>, n: nat, key: Key, window: int): Buckets
    requires n <= |run|
  {
    if n == 0 then map[]
    else
      var before, e := AloneAt(run, n - 1, key, window), run[n - 1];
      if e.op != Evict && e.op.key == key then After(before, e, window) else before
  }

  ghost predicate Sound(bs: Buckets, now: int) {
    forall k :: k in bs ==> bs[k].windowFrom <= bs[k].lastSeen <= now && bs[k].count >= 1
  }

  lemma {:induction false} BucketsSound(run: seq<Event>, n: nat, window: int, now: int)
    requires n <= |run| && ClockRuns(run) && Now(run, n, now)
    ensures Sound(BucketsAt(run, n, window), now)
  {
    if n > 0 { BucketsSound(run, n - 1, window, run[n - 1].at); }
  }

  /** Two limiters agree about a key: the same bucket, or one of them dropped a bucket that had expired. */
  ghost predicate Agree(bs: Buckets, other: Buckets, key: Key, window: int, now: int) {
    if key in bs then key in other && other[key] == bs[key]
    else key in other ==> Expired(other[key], window, now)
  }

  lemma EvictionKeepsAgreement(bs: Buckets, other: Buckets, key: Key, window: int, now: int)
    requires Sound(bs, now) && Agree(bs, other, key, window, now)
    ensures Agree(Evicted(bs, window, now), other, key, window, now)
  {
  }

  lemma {:induction false} AloneAgrees(run: seq<Event>, n: nat, key: Key, window: int, now: int)
    requires n <= |run| && ClockRuns(run) && Now(run, n, now)
    ensures Agree(BucketsAt(run, n, window), AloneAt(run, n, key, window), key, window, now)
  {
    if n > 0 {
      var e := run[n - 1];
      var bs := BucketsAt(run, n - 1, window);
      AloneAgrees(run, n - 1, key, window, e.at);
      BucketsSound(run, n - 1, window, e.at);
      if e.op == Evict { EvictionKeepsAgreement(bs, AloneAt(run, n - 1, key, window), key, window, e.at); }
    }
  }

  /**
   Cleanup is invisible and keys are independent: whatever the cleanup and other keys do in
   between, a check answers as if the key had been alone with a limiter that never evicts.
   */
  lemma EvictionInvisible(run: seq<Event>, key: Key, max: int, window: int, now: int)
    requires ClockRuns(run) && Now(run, |run|, now)
    ensures Allows(BucketsAt(run, |run|, window), key, max, window, now) ==
            Allows(AloneAt(run, |run|, key, window), key, max, window, now)
  {
    AloneAgrees(run, |run|, key, window, now);
  }

  // ---------------------------------------------------------------- when a check is refused

  /** The failures recorded for `key` among the events `lo`, ..., `hi - 1`. */
  function Failures(run: seq<Event>, lo: nat, hi: nat, key: Key): nat
    requires lo <= hi <= |run|
  {
    if lo == hi then 0
    else Failures(run, lo, hi - 1, key) + if run[hi - 1].op == Fail(key) then 1 else 0
  }

  /** A bucket's window starts at one of the key's failures. */
  lemma {:induction false} WindowStartsAtFailure(run: seq<Event>, n: nat, key: Key, window: int) returns (i: nat)
    requires n <= |run| && key in BucketsAt(run, n, window)
    ensures i < n && run[i].op == Fail(key) && run[i].at == BucketsAt(run, n, window)[key].windowFrom
  {
    var before, e := BucketsAt(run, n - 1, window), run[n - 1];
    if e.op == Fail(key) && (key !in before || Expired(before[key], window, e.at)) {
      i := n - 1;
    } else {
      i := WindowStartsAtFailure(run, n - 1, key, window);
    }
  }

  /** Once every failure of a key is more than a window ago, the key is free again. */
  lemma FreeAfterWindow(run: seq<Event>, key: Key, max: int, window: int, now: int)
    requires ClockRuns(run) && Now(run, |run|, now)
    requires forall i :: 0 <= i < |run| && run[i].op == Fail(key) ==> now - run[i].at > window
    ensures Allows(BucketsAt(run, |run|, window), key, max, window, now)
  {
    if key in BucketsAt(run, |run|, window) {
      var i := WindowStartsAtFailure(run, |run|, key, window);
    }
  }

  /**
   The failure that opened the key's latest window: the first one since the last success, or the first
   to come more than a window after the one that had opened the window before.
   */
  function OpenedBy(run: seq<Event>, n: nat, key: Key, window: int): (r: int)
    requires n <= |run|
    ensures -1 <= r < n && (r >= 0 ==> run[r].op == Fail(key))
  {
    if n == 0 then -1
    else
      var before, e := OpenedBy(run, n - 1, key, window), run[n - 1];
      if e.op == Succeed(key) then -1
      else if e.op == Fail(key) && (before < 0 || e.at > run[before].at + window) then n - 1
      else before
  }

  /** A limiter that never evicts holds the window's start, the failures counted from it and the latest one's time. */
  lemma {:induction false} AloneIsWindow(run: seq<Event>, n: nat, key: Key, window: int)
    requires n <= |run|
    ensures var i, bs := OpenedBy(run, n, key, window), AloneAt(run, n, key, window);
            && (key in bs <==> i >= 0)
            && (i >= 0 ==> bs[key].windowFrom == run[i].at && bs[key].count == Failures(run, i, n, key))
  {
    if n > 0 {
      AloneIsWindow(run, n - 1, key, window);
      var i := OpenedBy(run, n, key, window);
      if i == n - 1 { assert Failures(run, n - 1, n - 1, key) == 0; }
    }
  }

  /**
   A check is refused exactly while the key's latest window is open, that is up to `window` after the
   failure that opened it, and at least `max` failures were recorded since then.
   */
  lemma RefusedIff(run: seq<Event>, key: Key, max: int, window: int, now: int)
    requires ClockRuns(run) && Now(run, |run|, now)
    ensures !Allows(BucketsAt(run, |run|, window), key, max, window, now) <==>
            var i := OpenedBy(run, |run|, key, window);
            i >= 0 && now <= run[i].at + window && Failures(run, i, |run|, key) >= max
  {
    EvictionInvisible(run, key, max, window, now);
    AloneIsWindow(run, |run|, key, window);
  }

  /** No failure of the key among the events from `lo` on. */
  ghost predicate NoFailureFrom(run: seq<Event>, lo: nat, key: Key) {
    forall j :: lo <= j < |run| ==> run[j].op != Fail(key)
  }

  lemma {:induction false} LatestFailureIsSeen(run: seq<Event>, n: nat, key: Key, window: int, i: nat)
    requires i < n <= |run| && key in BucketsAt(run, n, window)
    requires run[i].op == Fail(key) && forall j :: i < j < n ==> run[j].op != Fail(key)
    ensures BucketsAt(run, n, window)[key].lastSeen == run[i].at
  {
    if i < n - 1 { LatestFailureIsSeen(run, n - 1, key, window, i); }
  }

  /** A cleanup at time `at` keeps a key exactly when its latest failure is at most ten windows ago. */
  lemma CleanupKeepsIff(run: seq<Event>, key: Key, window: int, at: int, i: nat)
    requires key in BucketsAt(run, |run|, window)
    requires i < |run| && run[i].op == Fail(key) && NoFailureFrom(run, i + 1, key)
    ensures key in After(BucketsAt(run, |run|, window), Event(at, Evict), window) <==> at - run[i].at <= 10 * window
  {
    LatestFailureIsSeen(run, |run|, key, window, i);
  }

  // ---------------------------------------------------------------- the failure bound

  /** Requests from `key` that were allowed and have not yet recorded their outcome. */
  function InFlight(run: seq<Event>, n: nat, key: Key, max: int, window: int): int
    requires n <= |run|
  {
    if n == 0 then 0
    else
      var e := run[n - 1];
      InFlight(run, n - 1, key, max, window) +
      if e.op == Check(key) && Allows(BucketsAt(run, n - 1, window), key, max, window, e.at) then 1
      else if e.op == Fail(key) || e.op == Succeed(key) then -1
      else 0
  }

  /** Every outcome follows an allowed check, and at most `k` requests of the key overlap. */
  ghost predicate Guarded(run: seq<Event>, key: Key, max: int, window: int, k: nat) {
    forall n :: 0 <= n <= |run| ==> 0 <= InFlight(run, n, key, max, window) <= k
  }

  /** A live bucket has room: its count and the requests still in flight stay below `max + k`. */
  lemma {:induction false} LiveBucketBound(run: seq<Event>, n: nat, key: Key, max: int, window: int, k: nat, now: int)
    requires max >= 1 && n <= |run| && ClockRuns(run) && Guarded(run, key, max, window, k) && Now(run, n, now)
    ensures var bs := BucketsAt(run, n, window);
            key in bs && !Expired(bs[key], window, now) ==>
              bs[key].count + InFlight(run, n, key, max, window) <= max - 1 + k
  {
    if n > 0 {
      LiveBucketBound(run, n - 1, key, max, window, k, run[n - 1].at);
      assert 0 <= InFlight(run, n, key, max, window) <= k;
    }
  }

  /** The events `lo`, ..., `hi - 1` lie in `[t0, t0 + window]` and none of them clears the key. */
  ghost predicate Stretch(run: seq<Event>, lo: nat, hi: nat, key: Key, window: int, t0: int)
    requires lo <= hi <= |run|
  {
    forall i :: lo <= i < hi ==> t0 <= run[i].at <= t0 + window && run[i].op != Succeed(key)
  }

  /**
   Failures of a stretch that went to a bucket opened before it number less than `max - 1 + k`,
   because that bucket's first failure lies outside; a bucket opened inside takes all the others.
   */
  ghost predicate Accounted(bs: Buckets, key: Key, f: nat, cap: int, t0: int) {
    if key in bs && bs[key].windowFrom >= t0 then f <= cap - 1 + bs[key].count
    else f <= cap - 1 && (key in bs ==> f < bs[key].count)
  }

  lemma {:induction false} StretchAccounting(
      run: seq<Event>, lo: nat, hi: nat, key: Key, max: int, window: int, k: nat, t0: int)
    requires max >= 1 && k >= 1 && lo <= hi <= |run|
    requires ClockRuns(run) && Guarded(run, key, max, window, k) && Stretch(run, lo, hi, key, window, t0)
    ensures Accounted(BucketsAt(run, hi, window), key, Failures(run, lo, hi, key), max - 1 + k, t0)
  {
    if lo == hi {
      BucketsSound(run, hi, window, if hi == 0 then t0 else run[hi - 1].at);
    } else {
      var e := run[hi - 1];
      StretchAccounting(run, lo, hi - 1, key, max, window, k, t0);
      LiveBucketBound(run, hi, key, max, window, k, e.at);
      BucketsSound(run, hi - 1, window, e.at);
      assert InFlight(run, hi, key, max, window) >= 0;
    }
  }

  /**
   In any stretch of at most one window without a success, a key records at most
   `2 * (max + k) - 3` failures when at most `k` of its requests overlap: `2 * max - 1` when
   requests come one after the other.
   */
  lemma FailureBound(run: seq<Event>, lo: nat, hi: nat, key: Key, max: int, window: int, k: nat, t0: int)
    requires max >= 1 && k >= 1 && lo <= hi <= |run|
    requires ClockRuns(run) && Guarded(run, key, max, window, k) && Stretch(run, lo, hi, key, window, t0)
    ensures Failures(run, lo, hi, key) <= 2 * (max + k) - 3
  {
    StretchAccounting(run, lo, hi, key, max, window, k, t0);
    if lo < hi {
      LiveBucketBound(run, hi, key, max, window, k, run[hi - 1].at);
      assert InFlight(run, hi, key, max, window) >= 0;
    }
  }

  // ---------------------------------------------------------------- the bound is reached

  /** A run under construction: it is legal, and the key has this bucket and so many requests in flight. */
  ghost predicate Built(run: seq<Event>, key: Key, max: int, window: int, k: nat, now: int, bs: Buckets, flying: int) {
    && ClockRuns(run) && Now(run, |run|, now)
    && Guarded(run, key, max, window, k)
    && BucketsAt(run, |run|, window) == bs
    && InFlight(run, |run|, key, max, window) == flying
  }

  lemma {:induction false} SamePrefix(run: seq<Event>, longer: seq<Event>, n: nat, key: Key, max: int, window: int)
    requires n <= |run| && run <= longer
    ensures BucketsAt(longer, n, window) == BucketsAt(run, n, window)
    ensures InFlight(longer, n, key, max, window) == InFlight(run, n, key, max, window)
  {
    if n > 0 { SamePrefix(run, longer, n - 1, key, max, window); }
  }

  lemma {:induction false} SameFailures(run: seq<Event>, longer: seq<Event>, lo: nat, hi: nat, key: Key)
    requires lo <= hi <= |run| && run <= longer
    ensures Failures(longer, lo, hi, key) == Failures(run, lo, hi, key)
  {
    if lo < hi { SameFailures(run, longer, lo, hi - 1, key); }
  }

  lemma {:induction false} FailuresAdd(run: seq<Event>, lo: nat, mid: nat, hi: nat, key: Key)
    requires lo <= mid <= hi <= |run|
    ensures Failures(run, lo, hi, key) == Failures(run, lo, mid, key) + Failures(run, mid, hi, key)
  {
    if mid < hi { FailuresAdd(run, lo, mid, hi - 1, key); }
  }

  /** One more event at the present time, which the limiter's callers can cause. */
  lemma Extend(run: seq<Event>, key: Key, max: int, window: int, k: nat, now: int, bs: Buckets, flying: int, op: Op)
    requires Built(run, key, max, window, k, now, bs, flying)
    requires (op == Check(key) && Allows(bs, key, max, window, now) && flying < k) || (op == Fail(key) && 0 < flying)
    ensures Built(run + [Event(now, op)], key, max, window, k, now, After(bs, Event(now, op), window),
                  if op == Fail(key) then flying - 1 else flying + 1)
  {
    var longer := run + [Event(now, op)];
    SamePrefix(run, longer, |run|, key, max, window);
    forall n | 0 <= n <= |run|
      ensures InFlight(longer, n, key, max, window) == InFlight(run, n, key, max, window)
    {
      SamePrefix(run, longer, n, key, max, window);
    }
  }

  /** `longer` adds to `run` events at one moment, `f` of them failures of the key and none a success. */
  ghost predicate Adds(run: seq<Event>, longer: seq<Event>, key: Key, now: int, f: nat) {
    && run <= longer
    && (forall i :: |run| <= i < |longer| ==> longer[i].at == now && longer[i].op != Succeed(key))
    && Failures(longer, |run|, |longer|, key) == f
  }

  lemma AddsOne(run: seq<Event>, longer: seq<Event>, key: Key, now: int, f: nat, op: Op)
    requires Adds(run, longer, key, now, f) && op != Succeed(key)
    ensures Adds(run, longer + [Event(now, op)], key, now, if op == Fail(key) then f + 1 else f)
  {
    SameFailures(longer, longer + [Event(now, op)], |run|, |longer|, key);
  }

  lemma AddsMore(run: seq<Event>, mid: seq<Event>, longer: seq<Event>, key: Key, now: int, f: nat, g: nat)
    requires Adds(run, mid, key, now, f) && Adds(mid, longer, key, now, g)
    ensures Adds(run, longer, key, now, f + g)
  {
    SameFailures(mid, longer, |run|, |mid|, key);
    FailuresAdd(longer, |run|, |mid|, |longer|, key);
  }

  /** Opening a bucket: `k` checks pass while the key is free, then one of them fails. */
  lemma OpenBucket(run: seq<Event>, key: Key, max: int, window: int, k: nat, now: int, bs: Buckets)
    returns (longer: seq<Event>)
    requires k >= 1 && Built(run, key, max, window, k, now, bs, 0)
    requires bs.Keys <= {key} && (key in bs ==> Expired(bs[key], window, now))
    ensures Built(longer, key, max, window, k, now, map[key := Bucket(1, now, now)], k - 1)
    ensures Adds(run, longer, key, now, 1)
  {
    longer := run;
    for i := 0 to k
      invariant Built(longer, key, max, window, k, now, bs, i)
      invariant Adds(run, longer, key, now, 0)
    {
      Extend(longer, key, max, window, k, now, bs, i, Check(key));
      AddsOne(run, longer, key, now, 0, Check(key));
      longer := longer + [Event(now, Check(key))];
    }
    Extend(longer, key, max, window, k, now, bs, k, Fail(key));
    AddsOne(run, longer, key, now, 0, Fail(key));
    longer := longer + [Event(now, Fail(key))];
  }

  /** Requests one by one up to the threshold, each checked and failing, while `k - 1` others stay in flight. */
  lemma ReachThreshold(run: seq<Event>, key: Key, max: int, window: int, k: nat, now: int, from: int, seen: int)
    returns (longer: seq<Event>, last: int)
    requires max >= 1 && k >= 1 && now <= from + window
    requires Built(run, key, max, window, k, now, map[key := Bucket(1, from, seen)], k - 1)
    ensures Built(longer, key, max, window, k, now, map[key := Bucket(max, from, last)], k - 1)
    ensures Adds(run, longer, key, now, max - 1)
  {
    longer, last := run, seen;
    for i := 1 to max
      invariant Built(longer, key, max, window, k, now, map[key := Bucket(i, from, last)], k - 1)
      invariant Adds(run, longer, key, now, i - 1)
    {
      var bs := map[key := Bucket(i, from, last)];
      Extend(longer, key, max, window, k, now, bs, k - 1, Check(key));
      AddsOne(run, longer, key, now, i - 1, Check(key));
      longer := longer + [Event(now, Check(key))];
      Extend(longer, key, max, window, k, now, bs, k, Fail(key));
      AddsOne(run, longer, key, now, i - 1, Fail(key));
      longer, last := longer + [Event(now, Fail(key))], now;
    }
  }

  /** The requests still in flight fail after the threshold. */
  lemma Overshoot(run: seq<Event>, key: Key, max: int, window: int, k: nat, now: int, from: int, seen: int)
    returns (longer: seq<Event>, last: int)
    requires max >= 1 && k >= 1 && now <= from + window
    requires Built(run, key, max, window, k, now, map[key := Bucket(max, from, seen)], k - 1)
    ensures Built(longer, key, max, window, k, now, map[key := Bucket(max + k - 1, from, last)], 0)
    ensures Adds(run, longer, key, now, k - 1)
  {
    longer, last := run, seen;
    for i := 0 to k - 1
      invariant Built(longer, key, max, window, k, now, map[key := Bucket(max + i, from, last)], k - 1 - i)
      invariant Adds(run, longer, key, now, i)
    {
      Extend(longer, key, max, window, k, now, map[key := Bucket(max + i, from, last)], k - 1 - i, Fail(key));
      AddsOne(run, longer, key, now, i, Fail(key));
      longer, last := longer + [Event(now, Fail(key))], now;
    }
  }

  /** For every threshold, overlap and window some run attains the bound, so it cannot be lowered. */
  lemma FailureBoundIsReached(key: Key, max: int, window: int, k: nat) returns (run: seq<Event>, lo: nat)
    requires max >= 1 && k >= 1 && window >= 1
    ensures lo <= |run| && ClockRuns(run) && Guarded(run, key, max, window, k)
    ensures Stretch(run, lo, |run|, key, window, window)
    ensures Failures(run, lo, |run|, key) == 2 * (max + k) - 3
  {
    var first := OpenBucket([], key, max, window, k, 0, map[]);
    var second, s2 := ReachThreshold(first, key, max, window, k, window, 0, 0);
    var third, s3 := Overshoot(second, key, max, window, k, window, 0, s2);
    AddsMore(first, second, third, key, window, max - 1, k - 1);
    var t := window + 1;
    var fourth := OpenBucket(third, key, max, window, k, t, map[key := Bucket(max + k - 1, 0, s3)]);
    var fifth, s5 := ReachThreshold(fourth, key, max, window, k, t, t, t);
    var s6;
    run, s6 := Overshoot(fifth, key, max, window, k, t, t, s5);
    AddsMore(third, fourth, fifth, key, t, 1, max - 1);
    AddsMore(third, fifth, run, key, t, max, k - 1);
    lo := |first|;
    SameFailures(third, run, lo, |third|, key);
    FailuresAdd(run, lo, |third|, |run|, key);
  }
}
