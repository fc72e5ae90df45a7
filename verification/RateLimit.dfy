/** backend/app/middleware/rate_limit.py: the fixed-window limiter and its callers' key loops. */
module RateLimit {
  import opened Common

  datatype Bucket = Bucket(count: int, resetAt: real)

  type Buckets = map<string, Bucket>

  datatype Verdict = Verdict(allowed: bool, retryAfter: int)

  /** `max(1, int(reset_at - now))`; the difference is positive, so truncating is rounding down. */
  function RetryAfter(resetAt: real, now: real): int {
    Max(1, (resetAt - now).Floor)
  }

  predicate Live(b: Buckets, key: string, now: real) {
    key in b && now < b[key].resetAt
  }

  /** The bucket a hit at `now` is counted in: the live one, or a new one opened by the hit. */
  function Current(b: Buckets, key: string, window: real, now: real): Bucket {
    if Live(b, key, now) then b[key] else Bucket(0, now + window)
  }

  function HitVerdict(b: Buckets, key: string, limit: int, window: real, now: real): Verdict {
    var c := Current(b, key, window, now);
    Verdict(c.count < limit, RetryAfter(c.resetAt, now))
  }

  function HitBuckets(b: Buckets, key: string, limit: int, window: real, now: real): Buckets {
    var c := Current(b, key, window, now);
    b[key := if c.count < limit then c.(count := c.count + 1) else c]
  }

  function CleanupBuckets(b: Buckets, now: real): Buckets {
    map k | k in b && now < b[k].resetAt :: b[k]
  }

  // ----- runs -----

  datatype Op = Hit(key: string, limit: int, at: real) | Cleanup(at: real)

  function After(b: Buckets, op: Op, window: real): Buckets {
    match op
    case Hit(key, limit, at) => HitBuckets(b, key, limit, window, at)
    case Cleanup(at) => CleanupBuckets(b, at)
  }

  /** The verdicts of the hits of a run, in order. */
  function Verdicts(b: Buckets, ops: seq<Op>, window: real): seq<Verdict>
    decreases |ops|
  {
    if ops == [] then []
    else
      var rest := Verdicts(After(b, ops[0], window), ops[1..], window);
      if ops[0].Hit? then [HitVerdict(b, ops[0].key, ops[0].limit, window, ops[0].at)] + rest else rest
  }

  /** The clock never runs backwards, from `now` on. */
  ghost predicate Timely(ops: seq<Op>, now: real) {
    ops == [] || (now <= ops[0].at && Timely(ops[1..], ops[0].at))
  }

  function WithoutCleanups(ops: seq<Op>): seq<Op> {
    if ops == [] then []
    else if ops[0].Hit? then [ops[0]] + WithoutCleanups(ops[1..])
    else WithoutCleanups(ops[1..])
  }

  ghost predicate NoDuplicates<T(!new)>(s: seq<T>) {
    forall i, j :: 0 <= i < j < |s| ==> s[i] != s[j]
  }

  function Truthy(s: Option<string>): bool {
    s.Some? && s.value != ""
  }

  /** The keys one HTTP request is charged under; no request is charged twice under one key. */
  function RequestKeys(path: string, ip: string, user: Option<string>, org: Option<string>): (keys: seq<string>)
    ensures NoDuplicates(keys)
    ensures |keys| == 1 + (if user.GetOr("") != "" then 1 else 0) + (if org.GetOr("") != "" then 1 else 0)
  {
    var prefix := "path:" + path;
    var ipKey := prefix + ":ip:" + ip;
    var userKey := prefix + ":user:" + user.GetOr("");
    var orgKey := prefix + ":org:" + org.GetOr("");
    assert ipKey[|prefix| + 1] == 'i' && userKey[|prefix| + 1] == 'u' && orgKey[|prefix| + 1] == 'o';
    [ipKey] + (if Truthy(user) then [userKey] else []) + (if Truthy(org) then [orgKey] else [])
  }

  class InMemoryRateLimiter {
    const window: real
    var buckets: Buckets

    constructor (window: real)
      ensures this.window == window && buckets == map[]
    {
      this.window := window;
      buckets := map[];
    }

    method HitKey(key: string, limit: int, now: real) returns (v: Verdict)
      modifies this
      ensures v == HitVerdict(old(buckets), key, limit, window, now)
      ensures buckets == HitBuckets(old(buckets), key, limit, window, now)
    {
      if key !in buckets || now >= buckets[key].resetAt {
        buckets := buckets[key := Bucket(0, now + window)];
      }
      var bucket := buckets[key];
      if bucket.count >= limit {
        return Verdict(false, Max(1, (bucket.resetAt - now).Floor));
      }
      buckets := buckets[key := bucket.(count := bucket.count + 1)];
      v := Verdict(true, Max(1, (bucket.resetAt - now).Floor));
    }

    method CleanupExpired(now: real)
      modifies this
      ensures buckets == CleanupBuckets(old(buckets), now)
      ensures forall key :: key in buckets <==> key in old(buckets) && now < old(buckets)[key].resetAt
    {
      var expired := set k | k in buckets && now >= buckets[k].resetAt;
      buckets := buckets - expired;
    }

    /**
     * The key loop of the middleware and of the websocket guard: stops at the first refusal. Each
     * hit reads the clock for itself.
     */
    method HitKeys(keys: seq<string>, limit: int, times: seq<real>) returns (v: Verdict)
      requires |times| == |keys|
      modifies this
      ensures var c := ChargeAll(old(buckets), keys, limit, window, times, Verdict(true, 1));
              v == c.verdict && buckets == c.buckets
    {
      v := Verdict(true, 1);
      var i := 0;
      while i < |keys|
        invariant 0 <= i <= |keys| && v.allowed
        invariant var c := ChargeAll(old(buckets), keys, limit, window, times, Verdict(true, 1));
                  var rest := ChargeAll(buckets, keys[i..], limit, window, times[i..], v);
                  c.verdict == rest.verdict && c.buckets == rest.buckets
      {
        assert keys[i..][1..] == keys[i + 1..] && times[i..][1..] == times[i + 1..];
        v := HitKey(keys[i], limit, times[i]);
        if !v.allowed {
          return;
        }
        i := i + 1;
      }
    }
  }

  // ----- several keys at once -----

  /** `charged` counts the keys that admitted the request before one refused it. */
  datatype Charge = Charge(verdict: Verdict, buckets: Buckets, charged: nat)

  function ChargeAll(b: Buckets, keys: seq<string>, limit: int, window: real, times: seq<real>, last: Verdict): Charge
    requires |times| == |keys|
    decreases |keys|
  {
    if keys == [] then Charge(last, b, 0)
    else
      var v, next := HitVerdict(b, keys[0], limit, window, times[0]), HitBuckets(b, keys[0], limit, window, times[0]);
      if !v.allowed then Charge(v, next, 0)
      else
        var rest := ChargeAll(next, keys[1..], limit, window, times[1..], v);
        rest.(charged := rest.charged + 1)
  }

  ghost predicate SameAt(a: Buckets, b: Buckets, key: string) {
    (key in a <==> key in b) && (key in a ==> a[key] == b[key])
  }

  lemma HitLeavesOtherKeys(b: Buckets, key: string, at: real, other: string, limit: int, window: real, now: real)
    requires key != other
    ensures var next := HitBuckets(b, key, limit, window, at);
            && SameAt(next, b, other)
            && HitVerdict(next, other, limit, window, now) == HitVerdict(b, other, limit, window, now)
            && SameAt(HitBuckets(next, other, limit, window, now), HitBuckets(b, other, limit, window, now), other)
  {
  }

  /**
   * A request passes exactly when every one of its keys on its own would admit it; when one does
   * not, the request gets the verdict of the first that refuses.
   */
  lemma {:induction false} ChargeMeaning(b: Buckets, keys: seq<string>, limit: int, window: real, times: seq<real>,
                                         last: Verdict)
    requires |times| == |keys| && NoDuplicates(keys) && last.allowed
    ensures var c := ChargeAll(b, keys, limit, window, times, last);
            && c.charged <= |keys|
            && (c.verdict.allowed <==> c.charged == |keys|)
            && (forall i :: 0 <= i < c.charged ==> HitVerdict(b, keys[i], limit, window, times[i]).allowed)
            && (c.charged < |keys| ==>
                  c.verdict == HitVerdict(b, keys[c.charged], limit, window, times[c.charged]) && !c.verdict.allowed)
    decreases |keys|
  {
    if keys != [] && HitVerdict(b, keys[0], limit, window, times[0]).allowed {
      var next := HitBuckets(b, keys[0], limit, window, times[0]);
      ChargeMeaning(next, keys[1..], limit, window, times[1..], HitVerdict(b, keys[0], limit, window, times[0]));
      forall i | 0 < i < |keys|
        ensures HitVerdict(next, keys[i], limit, window, times[i]) == HitVerdict(b, keys[i], limit, window, times[i])
      {
        HitLeavesOtherKeys(b, keys[0], times[0], keys[i], limit, window, times[i]);
      }
    }
  }

  /**
   * The keys up to the refusing one are hit once each, also when the request is refused in the
   * end; every later key is left alone.
   */
  lemma {:induction false} ChargeEffect(b: Buckets, keys: seq<string>, limit: int, window: real, times: seq<real>,
                                        last: Verdict, i: nat)
    requires |times| == |keys| && NoDuplicates(keys) && i < |keys|
    ensures var c := ChargeAll(b, keys, limit, window, times, last);
            SameAt(c.buckets, if i <= c.charged then HitBuckets(b, keys[i], limit, window, times[i]) else b, keys[i])
    decreases |keys|
  {
    var next := HitBuckets(b, keys[0], limit, window, times[0]);
    var v := HitVerdict(b, keys[0], limit, window, times[0]);
    if i == 0 {
      if v.allowed {
        ChargeLeavesOtherKeys(next, keys[1..], limit, window, times[1..], v, keys[0]);
      }
    } else {
      HitLeavesOtherKeys(b, keys[0], times[0], keys[i], limit, window, times[i]);
      if v.allowed {
        ChargeEffect(next, keys[1..], limit, window, times[1..], v, i - 1);
      }
    }
  }

  /** A key that is not among those charged keeps its bucket. */
  lemma {:induction false} ChargeLeavesOtherKeys(b: Buckets, keys: seq<string>, limit: int, window: real,
                                                 times: seq<real>, last: Verdict, key: string)
    requires |times| == |keys| && forall i :: 0 <= i < |keys| ==> keys[i] != key
    ensures SameAt(ChargeAll(b, keys, limit, window, times, last).buckets, b, key)
    decreases |keys|
  {
    if keys != [] && HitVerdict(b, keys[0], limit, window, times[0]).allowed {
      ChargeLeavesOtherKeys(HitBuckets(b, keys[0], limit, window, times[0]), keys[1..], limit, window, times[1..],
                            HitVerdict(b, keys[0], limit, window, times[0]), key);
    }
  }

  // ----- cleanup is invisible -----

  /** The two tables agree on every bucket that is still live. */
  ghost predicate SameLive(a: Buckets, b: Buckets, now: real) {
    forall k :: (Live(a, k, now) <==> Live(b, k, now)) && (Live(a, k, now) ==> a[k] == b[k])
  }

  lemma SameLiveLater(a: Buckets, b: Buckets, now: real, later: real)
    requires SameLive(a, b, now) && now <= later
    ensures SameLive(a, b, later)
  {
    forall k ensures (Live(a, k, later) <==> Live(b, k, later)) && (Live(a, k, later) ==> a[k] == b[k]) {
      assert Live(a, k, later) ==> Live(a, k, now);
      assert Live(b, k, later) ==> Live(b, k, now);
    }
  }

  lemma {:induction false} VerdictsDependOnLiveBuckets(a: Buckets, b: Buckets, ops: seq<Op>, window: real, now: real)
    requires SameLive(a, b, now) && Timely(ops, now)
    ensures Verdicts(a, ops, window) == Verdicts(b, WithoutCleanups(ops), window)
    decreases |ops|
  {
    if ops != [] {
      var op := ops[0];
      SameLiveLater(a, b, now, op.at);
      if op.Hit? {
        assert Live(a, op.key, op.at) <==> Live(b, op.key, op.at);
        VerdictsDependOnLiveBuckets(After(a, op, window), After(b, op, window), ops[1..], window, op.at);
        assert WithoutCleanups(ops)[1..] == WithoutCleanups(ops[1..]);
      } else {
        VerdictsDependOnLiveBuckets(After(a, op, window), b, ops[1..], window, op.at);
      }
    }
  }

  /** Inserting or removing cleanups anywhere changes no verdict and no `retry_after`. */
  lemma CleanupIsInvisible(b: Buckets, a: seq<Op>, c: seq<Op>, window: real, now: real)
    requires Timely(a, now) && Timely(c, now)
    requires WithoutCleanups(a) == WithoutCleanups(c)
    ensures Verdicts(b, a, window) == Verdicts(b, c, window)
  {
    VerdictsDependOnLiveBuckets(b, b, a, window, now);
    VerdictsDependOnLiveBuckets(b, b, c, window, now);
  }

  // ----- how many hits are admitted -----

  /** Hits on `key` admitted during an interval. */
  function Admitted(b: Buckets, ops: seq<Op>, window: real, key: string, during: Interval): nat
    decreases |ops|
  {
    if ops == [] then 0
    else
      Admitted(After(b, ops[0], window), ops[1..], window, key, during)
      + if ops[0].Hit? && ops[0].key == key && during(ops[0].at)
           && HitVerdict(b, key, ops[0].limit, window, ops[0].at).allowed then 1 else 0
  }

  ghost predicate LimitsWithin(ops: seq<Op>, key: string, least: int, most: nat) {
    forall op :: op in ops && op.Hit? && op.key == key ==> least <= op.limit <= most
  }

  ghost predicate LimitsAtMost(ops: seq<Op>, key: string, limit: nat) {
    forall op :: op in ops && op.Hit? && op.key == key ==> op.limit <= limit
  }

  /**
   * How many hits on `key` can still be admitted between `from` and `to`, seen from `now`: what is
   * left of the live bucket, plus as many whole buckets as can still open before `to`.
   */
  function Room(b: Buckets, key: string, window: real, limit: nat, now: real, to: real): int {
    if now > to then 0
    else if Live(b, key, now) then
      var resetAt := b[key].resetAt;
      if resetAt > to then Max(0, limit - b[key].count)
      else if resetAt + window <= to then 2 * limit
      else Max(0, limit - b[key].count) + limit
    else if now + window <= to then 2 * limit
    else limit
  }

  lemma RoomShrinksWithTime(b: Buckets, key: string, window: real, limit: nat, now: real, later: real, to: real)
    requires now <= later && window > 0.0
    ensures Room(b, key, window, limit, later, to) <= Room(b, key, window, limit, now, to)
  {
  }

  lemma HitUsesRoom(b: Buckets, op: Op, window: real, limit: nat, from: real, to: real)
    requires op.Hit? && op.limit <= limit && window > 0.0 && to <= from + window
    ensures Room(After(b, op, window), op.key, window, limit, op.at, to)
            + (if from <= op.at <= to && HitVerdict(b, op.key, op.limit, window, op.at).allowed then 1 else 0)
         <= Room(b, op.key, window, limit, op.at, to)
  {
  }

  lemma {:induction false} AdmittedWithinRoom(b: Buckets, ops: seq<Op>, window: real, key: string, limit: nat,
                                              now: real, from: real, to: real)
    requires Timely(ops, now) && LimitsAtMost(ops, key, limit)
    requires window > 0.0 && to <= from + window
    ensures Admitted(b, ops, window, key, Closed(from, to)) <= Room(b, key, window, limit, now, to)
    decreases |ops|
  {
    if ops != [] {
      var op := ops[0];
      var next := After(b, op, window);
      RoomShrinksWithTime(b, key, window, limit, now, op.at, to);
      AdmittedWithinRoom(next, ops[1..], window, key, limit, op.at, from, to);
      if op.Hit? && op.key == key {
        assert op in ops;
        HitUsesRoom(b, op, window, limit, from, to);
      } else {
        assert Live(next, key, op.at) <==> Live(b, key, op.at);
      }
    }
  }

  /**
   * In every run of hits and cleanups with a clock that never runs backwards, any closed interval
   * of one window length admits at most twice the limit on a key.
   */
  lemma AtMostTwiceTheLimit(ops: seq<Op>, window: real, key: string, limit: nat, now: real, from: real)
    requires Timely(ops, now) && LimitsAtMost(ops, key, limit) && window > 0.0
    ensures Admitted(map[], ops, window, key, Closed(from, from + window)) <= 2 * limit
  {
    AdmittedWithinRoom(map[], ops, window, key, limit, now, from, from + window);
  }

  /** While one bucket is live it admits no more than the limit, counting what it already admitted. */
  lemma BucketAdmitsAtMostLimit(b: Buckets, ops: seq<Op>, window: real, key: string, limit: nat, now: real, to: real)
    requires Timely(ops, now) && LimitsAtMost(ops, key, limit) && window > 0.0
    requires Live(b, key, now) && now <= to < b[key].resetAt <= now + window
    ensures Admitted(b, ops, window, key, Closed(now, to)) <= Max(0, limit - b[key].count)
  {
    AdmittedWithinRoom(b, ops, window, key, limit, now, now, to);
  }

  // ----- half-open intervals -----

  /** A bucket is opened by the first hit it admits, unless a hit with limit zero opened it. */
  ghost predicate NoEmptyBucket(b: Buckets, key: string, now: real) {
    Live(b, key, now) ==> b[key].count >= 1
  }

  /** As `Room`, for the half-open interval of one window length that ends at `to`. */
  function HalfOpenRoom(b: Buckets, key: string, window: real, limit: nat, now: real, to: real): int {
    if now >= to then 0
    else if Live(b, key, now) then
      var resetAt := b[key].resetAt;
      if resetAt >= to then Max(0, limit - b[key].count)
      else if resetAt + window < to then Max(0, 2 * limit - 1)
      else Max(0, limit - b[key].count) + limit
    else if now + window < to then Max(0, 2 * limit - 1)
    else limit
  }

  lemma HalfOpenRoomShrinksWithTime(b: Buckets, key: string, window: real, limit: nat, now: real, later: real,
                                    to: real)
    requires now <= later && window > 0.0
    ensures HalfOpenRoom(b, key, window, limit, later, to) <= HalfOpenRoom(b, key, window, limit, now, to)
  {
  }

  lemma HitUsesHalfOpenRoom(b: Buckets, op: Op, window: real, limit: nat, to: real)
    requires op.Hit? && 1 <= op.limit <= limit && window > 0.0 && NoEmptyBucket(b, op.key, op.at)
    ensures NoEmptyBucket(After(b, op, window), op.key, op.at)
    ensures HalfOpenRoom(After(b, op, window), op.key, window, limit, op.at, to)
            + (if to - window <= op.at < to && HitVerdict(b, op.key, op.limit, window, op.at).allowed then 1 else 0)
         <= HalfOpenRoom(b, op.key, window, limit, op.at, to)
  {
  }

  lemma {:induction false} AdmittedWithinHalfOpenRoom(b: Buckets, ops: seq<Op>, window: real, key: string, limit: nat,
                                                      now: real, to: real)
    requires Timely(ops, now) && LimitsWithin(ops, key, 1, limit)
    requires window > 0.0 && NoEmptyBucket(b, key, now)
    ensures Admitted(b, ops, window, key, HalfOpen(to - window, to)) <= HalfOpenRoom(b, key, window, limit, now, to)
    decreases |ops|
  {
    if ops != [] {
      var op := ops[0];
      var next := After(b, op, window);
      HalfOpenRoomShrinksWithTime(b, key, window, limit, now, op.at, to);
      if op.Hit? && op.key == key {
        assert op in ops;
        HitUsesHalfOpenRoom(b, op, window, limit, to);
      } else {
        assert Live(next, key, op.at) <==> Live(b, key, op.at);
      }
      AdmittedWithinHalfOpenRoom(next, ops[1..], window, key, limit, op.at, to);
    }
  }

  /**
   * Without the end point the bound is one lower, as long as no hit on the key comes with limit
   * zero: a bucket that is already open was opened by an admitted hit.
   */
  lemma HalfOpenBound(ops: seq<Op>, window: real, key: string, limit: nat, now: real, from: real)
    requires Timely(ops, now) && LimitsWithin(ops, key, 1, limit) && window > 0.0
    ensures Admitted(map[], ops, window, key, HalfOpen(from, from + window)) <= Max(0, 2 * limit - 1)
  {
    AdmittedWithinHalfOpenRoom(map[], ops, window, key, limit, now, from + window);
  }

  // ----- both bounds are reached -----

  function Burst(key: string, limit: nat, at: real, n: nat): seq<Op> {
    if n == 0 then [] else [Hit(key, limit, at)] + Burst(key, limit, at, n - 1)
  }

  lemma BurstUnfolds(key: string, limit: nat, at: real, n: nat, tail: seq<Op>)
    requires n > 0
    ensures var ops := Burst(key, limit, at, n) + tail;
            ops != [] && ops[0] == Hit(key, limit, at) && ops[1..] == Burst(key, limit, at, n - 1) + tail
  {
    var rest := Burst(key, limit, at, n - 1);
    assert Burst(key, limit, at, n) == [Hit(key, limit, at)] + rest;
    assert ([Hit(key, limit, at)] + rest) + tail == [Hit(key, limit, at)] + (rest + tail);
  }

  lemma {:induction false} BurstIsTimely(key: string, limit: nat, at: real, n: nat, tail: seq<Op>, now: real)
    requires now <= at && Timely(tail, at)
    ensures Timely(Burst(key, limit, at, n) + tail, now)
    decreases n
  {
    if n == 0 {
      assert Burst(key, limit, at, n) + tail == tail;
    } else {
      var ops := Burst(key, limit, at, n) + tail;
      BurstUnfolds(key, limit, at, n, tail);
      BurstIsTimely(key, limit, at, n - 1, tail, at);
    }
  }

  lemma {:induction false} BurstLimits(key: string, limit: nat, at: real, n: nat)
    ensures LimitsWithin(Burst(key, limit, at, n), key, limit, limit)
    decreases n
  {
    if n > 0 {
      BurstLimits(key, limit, at, n - 1);
    }
  }

  /** A burst that fits into the current bucket is admitted whole. */
  lemma {:induction false} BurstFits(b: Buckets, window: real, key: string, limit: nat, at: real, n: nat,
                                     tail: seq<Op>, during: Interval) returns (next: Buckets)
    requires window > 0.0
    requires Current(b, key, window, at).count + n <= limit
    ensures n > 0 ==>
              key in next
              && next[key] == Bucket(Current(b, key, window, at).count + n, Current(b, key, window, at).resetAt)
    ensures n == 0 ==> next == b
    ensures Admitted(b, Burst(key, limit, at, n) + tail, window, key, during)
         == (if during(at) then n else 0) + Admitted(next, tail, window, key, during)
    decreases n
  {
    if n == 0 {
      assert Burst(key, limit, at, n) + tail == tail;
      next := b;
    } else {
      var ops := Burst(key, limit, at, n) + tail;
      BurstUnfolds(key, limit, at, n, tail);
      var c, after := Current(b, key, window, at), After(b, ops[0], window);
      assert HitVerdict(b, key, limit, window, at).allowed && at < c.resetAt;
      assert after[key] == Bucket(c.count + 1, c.resetAt) == Current(after, key, window, at);
      next := BurstFits(after, window, key, limit, at, n - 1, tail, during);
    }
  }

  /** The bound is reached for every limit: one burst at the start of a window, one at its end. */
  lemma TwiceTheLimitIsReached(window: real, key: string, limit: nat)
    requires window > 0.0
    ensures exists ops :: Timely(ops, 0.0) && LimitsAtMost(ops, key, limit)
                       && Admitted(map[], ops, window, key, Closed(0.0, window)) == 2 * limit
  {
    var second := Burst(key, limit, window, limit);
    var ops := Burst(key, limit, 0.0, limit) + second;
    assert second + [] == second;
    BurstIsTimely(key, limit, window, limit, [], 0.0);
    BurstIsTimely(key, limit, window, limit, [], window);
    BurstIsTimely(key, limit, 0.0, limit, second, 0.0);
    var b := BurstFits(map[], window, key, limit, 0.0, limit, second, Closed(0.0, window));
    var _ := BurstFits(b, window, key, limit, window, limit, [], Closed(0.0, window));
    BurstLimits(key, limit, 0.0, limit);
    BurstLimits(key, limit, window, limit);
  }

  /** The trace that reaches the half-open bound: one hit opens the bucket half a window early. */
  function EarlyOpening(window: real, key: string, limit: nat): seq<Op>
    requires limit >= 1
  {
    Burst(key, limit, 0.0, 1)
    + (Burst(key, limit, window / 2.0, limit - 1) + (Burst(key, limit, window, limit) + []))
  }

  lemma EarlyOpeningIsTimely(window: real, key: string, limit: nat)
    requires window > 0.0 && limit >= 1
    ensures Timely(EarlyOpening(window, key, limit), 0.0)
  {
    var third := Burst(key, limit, window, limit) + [];
    var second := Burst(key, limit, window / 2.0, limit - 1) + third;
    BurstIsTimely(key, limit, window, limit, [], window / 2.0);
    BurstIsTimely(key, limit, window / 2.0, limit - 1, third, 0.0);
    BurstIsTimely(key, limit, 0.0, 1, second, 0.0);
  }

  lemma HalfOpenBoundIsReached(window: real, key: string, limit: nat)
    requires window > 0.0 && limit >= 1
    ensures var ops := EarlyOpening(window, key, limit);
            && Timely(ops, 0.0) && LimitsWithin(ops, key, limit, limit)
            && Admitted(map[], ops, window, key, HalfOpen(window / 2.0, window / 2.0 + window)) == 2 * limit - 1
  {
    EarlyOpeningIsTimely(window, key, limit);
    BurstLimits(key, limit, 0.0, 1);
    BurstLimits(key, limit, window / 2.0, limit - 1);
    BurstLimits(key, limit, window, limit);
    EarlyOpeningAdmits(window, key, limit, HalfOpen(window / 2.0, window / 2.0 + window));
  }

  lemma EarlyOpeningAdmits(window: real, key: string, limit: nat, during: Interval)
    requires window > 0.0 && limit >= 1
    requires !during(0.0) && during(window / 2.0) && during(window)
    ensures Admitted(map[], EarlyOpening(window, key, limit), window, key, during) == 2 * limit - 1
  {
    var third := Burst(key, limit, window, limit) + [];
    var second := Burst(key, limit, window / 2.0, limit - 1) + third;
    var b1 := BurstFits(map[], window, key, limit, 0.0, 1, second, during);
    assert b1[key] == Bucket(1, window);
    var b2 := BurstFits(b1, window, key, limit, window / 2.0, limit - 1, third, during);
    assert b2[key] == Bucket(limit, window);
    var _ := BurstFits(b2, window, key, limit, window, limit, [], during);
  }

  // ----- the advertised wait -----

  /**
   * A refused client that waits the advertised `retry_after` is admitted exactly when the rest of
   * the window was a whole number of seconds or below one: otherwise the advice is rounded down
   * and falls short. One second more is always enough.
   */
  lemma RetryAfterIsHonest(b: Buckets, key: string, limit: int, window: real, now: real)
    requires limit >= 1 && window > 0.0
    requires !HitVerdict(b, key, limit, window, now).allowed
    ensures var wait := HitVerdict(b, key, limit, window, now).retryAfter;
            var remaining := b[key].resetAt - now;
            var next := HitBuckets(b, key, limit, window, now);
            && (HitVerdict(next, key, limit, window, now + wait as real).allowed
                <==> (remaining <= 1.0 || remaining.Floor as real == remaining))
            && HitVerdict(next, key, limit, window, now + (wait + 1) as real).allowed
  {
  }

  /**
   * It does fall short: one hit uses up a limit of one, a client refused 58.5 seconds later is told
   * to wait one second, waits it, and is refused again.
   */
  lemma RetryAfterFallsShort(key: string)
    ensures Verdicts(map[], [Hit(key, 1, 0.0), Hit(key, 1, 58.5), Hit(key, 1, 59.5)], 60.0)
         == [Verdict(true, 60), Verdict(false, 1), Verdict(false, 1)]
  {
    var first, second, third := Hit(key, 1, 0.0), Hit(key, 1, 58.5), Hit(key, 1, 59.5);
    var b := HitBuckets(map[], key, 1, 60.0, 0.0);
    assert [first, second, third][1..] == [second, third] && [second, third][1..] == [third] && [third][1..] == [];
    assert HitBuckets(b, key, 1, 60.0, 58.5) == b;
    assert Verdicts(b, [third], 60.0) == [Verdict(false, 1)];
    assert Verdicts(b, [second, third], 60.0) == [Verdict(false, 1)] + [Verdict(false, 1)];
  }
}
