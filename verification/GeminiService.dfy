/** The guards of backend/app/services/gemini_service.py: sliding log, breaker and recording. */
module GeminiService {
  import opened Common
  import opened Resilience

  // ----- the sliding log -----

  function Purge(log: seq<real>, window: real, now: real): seq<real> {
    if log != [] && now - log[0] >= window then Purge(log[1..], window, now) else log
  }

  datatype LogStep = LogStep(allowed: bool, log: seq<real>)

  function Check(log: seq<real>, window: real, limit: int, now: real): LogStep {
    var kept := Purge(log, window, now);
    if |kept| >= limit then LogStep(false, kept) else LogStep(true, kept + [now])
  }

  /** The calls of `history` that fall into the window ending at `now`. */
  function InWindow(history: seq<real>, window: real, now: real): seq<real> {
    if history == [] then []
    else
      var rest := InWindow(history[..|history| - 1], window, now);
      var last := history[|history| - 1];
      if now - last < window then rest + [last] else rest
  }

  ghost predicate Ascending(s: seq<real>) {
    forall i, j :: 0 <= i < j < |s| ==> s[i] <= s[j]
  }

  ghost predicate NoneAfter(s: seq<real>, now: real) {
    forall i :: 0 <= i < |s| ==> s[i] <= now
  }

  /** Each admission found fewer than `limit` earlier ones in the window ending at it. */
  ghost predicate WellAdmitted(history: seq<real>, window: real, limit: int) {
    forall i :: 0 <= i < |history| ==> |InWindow(history[..i], window, history[i])| < limit
  }

  /**
   * The log is the history filtered to the window that ended at the last check. A window of zero
   * or less contains nothing, and the next check purges whatever the last one appended.
   */
  ghost predicate LogMatches(log: seq<real>, history: seq<real>, window: real, clock: real) {
    if window > 0.0 then log == InWindow(history, window, clock) else NoneAfter(log, clock)
  }

  ghost predicate LogInvariant(log: seq<real>, history: seq<real>, window: real, limit: int, clock: real) {
    && Ascending(history) && NoneAfter(history, clock)
    && LogMatches(log, history, window, clock)
    && WellAdmitted(history, window, limit)
  }

  class SlidingLog {
    const window: real
    const limit: int
    var log: seq<real>
    ghost var history: seq<real>
    ghost var clock: real

    ghost predicate Valid()
      reads this
    {
      LogInvariant(log, history, window, limit, clock)
    }

    constructor (window: real, limit: int, ghost start: real)
      ensures Valid() && history == [] && clock == start && this.window == window && this.limit == limit
    {
      this.window, this.limit := window, limit;
      log, history, clock := [], [], start;
    }

    /** Admits exactly when fewer than `limit` calls were admitted in the window ending now. */
    method CheckRateLimit(now: real) returns (allowed: bool)
      requires Valid() && clock <= now
      modifies this
      ensures Valid() && clock == now
      ensures allowed <==> |InWindow(old(history), window, now)| < limit
      ensures history == if allowed then old(history) + [now] else old(history)
      ensures LogStep(allowed, log) == Check(old(log), window, limit, now)
    {
      CheckKeepsInvariant(log, history, window, limit, clock, now);
      while log != [] && now - log[0] >= window
        invariant Purge(log, window, now) == Purge(old(log), window, now)
        invariant history == old(history)
        decreases |log|
      {
        log := log[1..];
      }
      clock := now;
      if |log| >= limit {
        return false;
      }
      log := log + [now];
      history := history + [now];
      return true;
    }
  }

  lemma {:induction false} InWindowConcat(a: seq<real>, b: seq<real>, window: real, now: real)
    ensures InWindow(a + b, window, now) == InWindow(a, window, now) + InWindow(b, window, now)
  {
    if b == [] {
      assert a + b == a;
    } else {
      assert (a + b)[..|a + b| - 1] == a + b[..|b| - 1];
      InWindowConcat(a, b[..|b| - 1], window, now);
    }
  }

  lemma {:induction false} InWindowAll(s: seq<real>, window: real, now: real)
    requires forall i :: 0 <= i < |s| ==> now - s[i] < window
    ensures InWindow(s, window, now) == s
  {
    if s != [] {
      InWindowAll(s[..|s| - 1], window, now);
      assert s == s[..|s| - 1] + [s[|s| - 1]];
    }
  }

  /** On an ascending log, dropping from the front only is the same as filtering. */
  lemma {:induction false} PurgeIsFilter(s: seq<real>, window: real, now: real)
    requires Ascending(s)
    ensures Purge(s, window, now) == InWindow(s, window, now)
  {
    if s != [] && now - s[0] >= window {
      PurgeIsFilter(s[1..], window, now);
      assert s == [s[0]] + s[1..];
      InWindowConcat([s[0]], s[1..], window, now);
    } else {
      InWindowAll(s, window, now);
    }
  }

  /** Filtering again later only removes more. */
  lemma {:induction false} InWindowTwice(s: seq<real>, window: real, clock: real, now: real)
    requires clock <= now
    ensures InWindow(InWindow(s, window, clock), window, now) == InWindow(s, window, now)
  {
    if s != [] {
      var front, last := s[..|s| - 1], s[|s| - 1];
      InWindowTwice(front, window, clock, now);
      InWindowConcat(InWindow(front, window, clock), [last], window, now);
    }
  }

  lemma {:induction false} InWindowKeepsOrder(s: seq<real>, window: real, now: real)
    requires Ascending(s)
    ensures Ascending(InWindow(s, window, now))
    ensures s != [] ==> NoneAfter(InWindow(s, window, now), s[|s| - 1])
  {
    if s != [] {
      InWindowKeepsOrder(s[..|s| - 1], window, now);
    }
  }

  lemma {:induction false} PurgeAll(s: seq<real>, window: real, now: real)
    requires forall i :: 0 <= i < |s| ==> now - s[i] >= window
    ensures Purge(s, window, now) == []
  {
    if s != [] {
      PurgeAll(s[1..], window, now);
    }
  }

  lemma {:induction false} InWindowNone(s: seq<real>, window: real, now: real)
    requires window <= 0.0 && NoneAfter(s, now)
    ensures InWindow(s, window, now) == []
  {
    if s != [] {
      InWindowNone(s[..|s| - 1], window, now);
    }
  }

  lemma WellAdmittedExtend(history: seq<real>, window: real, limit: int, now: real)
    requires WellAdmitted(history, window, limit) && |InWindow(history, window, now)| < limit
    ensures WellAdmitted(history + [now], window, limit)
  {
    var h := history + [now];
    forall i | 0 <= i < |h| ensures |InWindow(h[..i], window, h[i])| < limit {
      assert h[..i] == history[..i];
      if i == |history| { assert history[..i] == history; }
    }
  }

  lemma PurgeSeesHistory(log: seq<real>, history: seq<real>, window: real, clock: real, now: real)
    requires Ascending(history) && NoneAfter(history, clock) && clock <= now
    requires LogMatches(log, history, window, clock)
    ensures Purge(log, window, now) == InWindow(history, window, now)
  {
    if window > 0.0 {
      InWindowKeepsOrder(history, window, clock);
      PurgeIsFilter(log, window, now);
      InWindowTwice(history, window, clock, now);
    } else {
      PurgeAll(log, window, now);
      InWindowNone(history, window, now);
    }
  }

  lemma AppendMatches(history: seq<real>, window: real, now: real)
    requires NoneAfter(history, now)
    ensures LogMatches(InWindow(history, window, now) + [now], history + [now], window, now)
  {
    if window > 0.0 {
      InWindowConcat(history, [now], window, now);
    } else {
      InWindowNone(history, window, now);
    }
  }

  lemma KeepMatches(history: seq<real>, window: real, now: real)
    requires NoneAfter(history, now)
    ensures LogMatches(InWindow(history, window, now), history, window, now)
  {
    if window <= 0.0 {
      InWindowNone(history, window, now);
    }
  }

  lemma NoneAfterLater(s: seq<real>, clock: real, now: real)
    requires NoneAfter(s, clock) && clock <= now
    ensures NoneAfter(s, now)
  {
  }

  lemma AscendingExtend(s: seq<real>, now: real)
    requires Ascending(s) && NoneAfter(s, now)
    ensures Ascending(s + [now]) && NoneAfter(s + [now], now)
  {
  }

  lemma AdmissionKeepsInvariant(history: seq<real>, window: real, limit: int, now: real)
    requires Ascending(history) && NoneAfter(history, now)
    requires WellAdmitted(history, window, limit) && |InWindow(history, window, now)| < limit
    ensures LogInvariant(InWindow(history, window, now) + [now], history + [now], window, limit, now)
  {
    AscendingExtend(history, now);
    WellAdmittedExtend(history, window, limit, now);
    AppendMatches(history, window, now);
  }

  /**
   * The log stays the full admission history filtered to the last window, so a check sees the true
   * number of recent admissions although it only ever looks at the front of its own log.
   */
  lemma CheckKeepsInvariant(log: seq<real>, history: seq<real>, window: real, limit: int, clock: real, now: real)
    requires clock <= now && LogInvariant(log, history, window, limit, clock)
    ensures var step := Check(log, window, limit, now);
            && Purge(log, window, now) == InWindow(history, window, now)
            && (step.allowed <==> |InWindow(history, window, now)| < limit)
            && LogInvariant(step.log, if step.allowed then history + [now] else history, window, limit, now)
  {
    PurgeSeesHistory(log, history, window, clock, now);
    NoneAfterLater(history, clock, now);
    if |InWindow(history, window, now)| < limit {
      AdmissionKeepsInvariant(history, window, limit, now);
    } else {
      KeepMatches(history, window, now);
    }
  }

  // ----- how many calls are admitted -----

  /** Admissions during an interval. */
  function Admitted(history: seq<real>, during: Interval): nat {
    if history == [] then 0
    else Admitted(history[..|history| - 1], during) + if during(history[|history| - 1]) then 1 else 0
  }

  /** The interval lies within one window ending at each of its points: no two of them are a window apart. */
  ghost predicate Narrow(during: Interval, window: real) {
    forall s, t :: during(s) && during(t) ==> t - s < window
  }

  lemma {:induction false} AdmittedAreRecent(history: seq<real>, window: real, during: Interval, last: real)
    requires Narrow(during, window) && during(last)
    ensures Admitted(history, during) <= |InWindow(history, window, last)|
  {
    if history != [] {
      AdmittedAreRecent(history[..|history| - 1], window, during, last);
    }
  }

  lemma {:induction false} NarrowBound(history: seq<real>, window: real, limit: int, during: Interval)
    requires WellAdmitted(history, window, limit) && Narrow(during, window)
    ensures Admitted(history, during) <= Max(0, limit)
  {
    if history != [] {
      var front, last := history[..|history| - 1], history[|history| - 1];
      forall i | 0 <= i < |front| ensures |InWindow(front[..i], window, front[i])| < limit {
        assert front[..i] == history[..i];
      }
      NarrowBound(front, window, limit, during);
      if during(last) {
        AdmittedAreRecent(front, window, during, last);
      }
    }
  }

  /** Wherever a half-open interval of one window length is laid, it holds at most `limit` admissions. */
  lemma AtMostLimitPerWindow(history: seq<real>, window: real, limit: int, from: real)
    requires WellAdmitted(history, window, limit)
    ensures Admitted(history, HalfOpen(from, from + window)) <= Max(0, limit)
  {
    NarrowBound(history, window, limit, HalfOpen(from, from + window));
  }

  function AfterStart(from: real, to: real): Interval { t => from < t <= to }

  lemma {:induction false} ClosedSplits(history: seq<real>, from: real, to: real)
    requires from <= to
    ensures Admitted(history, Closed(from, to))
         == Admitted(history, HalfOpen(from, to)) + Admitted(history, Closed(to, to))
    ensures Admitted(history, Closed(from, to))
         == Admitted(history, AfterStart(from, to)) + Admitted(history, Closed(from, from))
  {
    if history != [] {
      ClosedSplits(history[..|history| - 1], from, to);
    }
  }

  /**
   * A closed interval of one window length holds at most `limit` admissions more than fall on
   * either of its end points, and at most twice the limit: only admissions exactly one window
   * apart can exceed the limit.
   */
  lemma ClosedWindowBound(history: seq<real>, window: real, limit: int, from: real)
    requires WellAdmitted(history, window, limit) && window > 0.0
    ensures var to := from + window;
            && Admitted(history, Closed(from, to)) <= 2 * Max(0, limit)
            && Admitted(history, Closed(from, to)) <= Max(0, limit) + Admitted(history, Closed(from, from))
            && Admitted(history, Closed(from, to)) <= Max(0, limit) + Admitted(history, Closed(to, to))
  {
    ClosedSplits(history, from, from + window);
    NarrowBound(history, window, limit, HalfOpen(from, from + window));
    NarrowBound(history, window, limit, AfterStart(from, from + window));
    NarrowBound(history, window, limit, Closed(from + window, from + window));
  }

  // ----- spacing -----

  /** Any two admissions `limit` places apart are at least a window apart. */
  ghost predicate Spaced(history: seq<real>, window: real, limit: nat) {
    forall i :: 0 <= i < |history| - limit ==> history[i + limit] - history[i] >= window
  }

  lemma {:induction false} InWindowAtMost(s: seq<real>, window: real, now: real, m: nat)
    requires m <= |s| && forall i :: 0 <= i < m ==> now - s[i] >= window
    ensures |InWindow(s, window, now)| <= |s| - m
  {
    if |s| > m {
      InWindowAtMost(s[..|s| - 1], window, now, m);
    } else if m > 0 {
      InWindowAtMost(s[..|s| - 1], window, now, m - 1);
    }
  }

  lemma {:induction false} InWindowAtLeast(s: seq<real>, window: real, now: real, m: nat)
    requires m <= |s| && forall i :: m <= i < |s| ==> now - s[i] < window
    ensures |InWindow(s, window, now)| >= |s| - m
  {
    if |s| > m {
      InWindowAtLeast(s[..|s| - 1], window, now, m);
    }
  }

  /** For a positive window, what the log admits is exactly what is spaced. */
  lemma WellAdmittedIffSpaced(history: seq<real>, window: real, limit: nat)
    requires Ascending(history) && window > 0.0
    ensures WellAdmitted(history, window, limit) <==> Spaced(history, window, limit)
  {
    if WellAdmitted(history, window, limit) {
      forall i | 0 <= i < |history| - limit ensures history[i + limit] - history[i] >= window {
        AdmittedMeansSpaced(history, window, limit, i);
      }
    }
    if Spaced(history, window, limit) {
      forall j | 0 <= j < |history| ensures |InWindow(history[..j], window, history[j])| < limit {
        SpacedMeansAdmitted(history, window, limit, j);
      }
    }
  }

  lemma AdmittedMeansSpaced(history: seq<real>, window: real, limit: nat, i: nat)
    requires Ascending(history) && WellAdmitted(history, window, limit) && i + limit < |history|
    ensures history[i + limit] - history[i] >= window
  {
    var now := history[i + limit];
    assert |InWindow(history[..i + limit], window, now)| < limit;
    if now - history[i] < window {
      InWindowAtLeast(history[..i + limit], window, now, i);
    }
  }

  lemma SpacedMeansAdmitted(history: seq<real>, window: real, limit: nat, j: nat)
    requires Ascending(history) && window > 0.0 && Spaced(history, window, limit) && j < |history|
    ensures |InWindow(history[..j], window, history[j])| < limit
  {
    if j >= limit {
      assert history[(j - limit) + limit] - history[j - limit] >= window;
      InWindowAtMost(history[..j], window, history[j], j - limit + 1);
    } else {
      InWindowAtMost(history[..j], window, history[j], 0);
    }
  }

  lemma {:induction false} AdmittedAtLeast(history: seq<real>, during: Interval, a: nat, b: nat)
    requires a <= b <= |history| && forall i :: a <= i < b ==> during(history[i])
    ensures Admitted(history, during) >= b - a
  {
    if |history| > b {
      AdmittedAtLeast(history[..|history| - 1], during, a, b);
    } else if b > a {
      AdmittedAtLeast(history[..|history| - 1], during, a, b - 1);
    }
  }

  lemma {:induction false} AdmittedAtMost(history: seq<real>, during: Interval, m: nat)
    requires m <= |history| && forall i :: 0 <= i < m ==> !during(history[i])
    ensures Admitted(history, during) <= |history| - m
  {
    if |history| > m {
      AdmittedAtMost(history[..|history| - 1], during, m);
    } else if m > 0 {
      AdmittedAtMost(history[..|history| - 1], during, m - 1);
    }
  }

  /** More than `n` admissions in an interval include two that are `n` places apart. */
  lemma {:induction false} AdmittedSpan(history: seq<real>, from: real, to: real, n: nat) returns (a: nat)
    requires Ascending(history) && Admitted(history, Closed(from, to)) > n
    ensures a + n < |history| && from <= history[a] && history[a + n] <= to
  {
    var front, k := history[..|history| - 1], |history| - 1;
    if Admitted(front, Closed(from, to)) > n {
      a := AdmittedSpan(front, from, to, n);
    } else {
      AdmittedAtMost(history, Closed(from, to), 0);
      a := k - n;
      if history[a] < from {
        AdmittedAtMost(history, Closed(from, to), a + 1);
      }
    }
  }

  ghost predicate KeepsLimit(history: seq<real>, window: real, limit: nat, from: real) {
    Admitted(history, Closed(from, from + window)) <= limit
  }

  /** The admissions at `i` and `limit` places later lie exactly one window apart. */
  predicate WindowApart(history: seq<real>, window: real, limit: nat, i: nat) {
    i + limit < |history| && history[i + limit] - history[i] == window
  }

  lemma WindowApartBreaksLimit(history: seq<real>, window: real, limit: nat, i: nat)
    requires Ascending(history) && WindowApart(history, window, limit, i)
    ensures !KeepsLimit(history, window, limit, history[i])
  {
    AdmittedAtLeast(history, Closed(history[i], history[i] + window), i, i + limit + 1);
  }

  lemma BrokenLimitIsWindowApart(history: seq<real>, window: real, limit: nat, from: real) returns (i: nat)
    requires Ascending(history) && Spaced(history, window, limit) && !KeepsLimit(history, window, limit, from)
    ensures WindowApart(history, window, limit, i)
  {
    i := AdmittedSpan(history, from, from + window, limit);
  }

  /**
   * Every closed interval of one window length keeps the limit exactly when no two admissions
   * `limit` places apart lie exactly one window apart.
   */
  lemma ClosedWindowsKeepLimitIff(history: seq<real>, window: real, limit: nat)
    requires Ascending(history) && WellAdmitted(history, window, limit) && window > 0.0
    ensures (forall from :: KeepsLimit(history, window, limit, from)) <==>
            (forall i :: !WindowApart(history, window, limit, i))
  {
    WellAdmittedIffSpaced(history, window, limit);
    if i :| WindowApart(history, window, limit, i) {
      WindowApartBreaksLimit(history, window, limit, i);
    } else {
      forall from ensures KeepsLimit(history, window, limit, from) {
        if !KeepsLimit(history, window, limit, from) {
          var i := BrokenLimitIsWindowApart(history, window, limit, from);
        }
      }
    }
  }

  // ----- every such history is admitted -----

  /** The log and the admission history after checks at the given times. */
  datatype Checks = Checks(log: seq<real>, history: seq<real>)

  function CheckAll(times: seq<real>, window: real, limit: int): Checks {
    if times == [] then Checks([], [])
    else
      var before, now := CheckAll(times[..|times| - 1], window, limit), times[|times| - 1];
      var step := Check(before.log, window, limit, now);
      Checks(step.log, if step.allowed then before.history + [now] else before.history)
  }

  lemma WellAdmittedBefore(front: seq<real>, now: real, window: real, limit: int)
    requires Ascending(front + [now]) && WellAdmitted(front + [now], window, limit)
    ensures Ascending(front) && WellAdmitted(front, window, limit) && NoneAfter(front, now)
    ensures |InWindow(front, window, now)| < limit
  {
    var times := front + [now];
    assert times[..|front|] == front && times[|front|] == now;
    forall i | 0 <= i < |front| ensures |InWindow(front[..i], window, front[i])| < limit {
      assert front[..i] == times[..i] && front[i] == times[i];
    }
    forall i, j | 0 <= i < j < |front| ensures front[i] <= front[j] {
      assert times[i] <= times[j];
    }
    forall i | 0 <= i < |front| ensures front[i] <= now {
      assert times[i] <= times[|front|];
    }
  }

  lemma CheckAllPush(times: seq<real>, now: real, window: real, limit: int)
    ensures var before := CheckAll(times, window, limit);
            var step := Check(before.log, window, limit, now);
            CheckAll(times + [now], window, limit)
            == Checks(step.log, if step.allowed then before.history + [now] else before.history)
  {
    assert (times + [now])[..|times|] == times;
  }

  /** Calls at times that the log may admit are all admitted. */
  lemma {:induction false} WellAdmittedIsAdmitted(times: seq<real>, window: real, limit: int, clock: real)
    requires Ascending(times) && WellAdmitted(times, window, limit)
    requires times == [] || clock == times[|times| - 1]
    ensures CheckAll(times, window, limit).history == times
    ensures LogInvariant(CheckAll(times, window, limit).log, times, window, limit, clock)
  {
    if times != [] {
      var front := times[..|times| - 1];
      assert times == front + [clock];
      WellAdmittedBefore(front, clock, window, limit);
      var before := if front == [] then clock else front[|front| - 1];
      WellAdmittedIsAdmitted(front, window, limit, before);
      CheckAllPush(front, clock, window, limit);
      CheckKeepsInvariant(CheckAll(front, window, limit).log, front, window, limit, before, clock);
    }
  }

  /** `n` calls at 0.0 and `n` calls one window later. */
  function TwoBursts(window: real, n: nat): (times: seq<real>)
    ensures |times| == 2 * n
  {
    seq(2 * n, i => if i < n then 0.0 else window)
  }

  /** The closed bound is reached: a burst that fills the log, and another when it has just expired. */
  lemma TwoBurstsFillAClosedWindow(window: real, limit: nat)
    requires window > 0.0
    ensures var times := TwoBursts(window, limit);
            && Ascending(times)
            && CheckAll(times, window, limit).history == times
            && Admitted(times, Closed(0.0, window)) == 2 * limit
  {
    var times := TwoBursts(window, limit);
    assert Spaced(times, window, limit);
    WellAdmittedIffSpaced(times, window, limit);
    WellAdmittedIsAdmitted(times, window, limit, window);
    AdmittedAtLeast(times, Closed(0.0, window), 0, 2 * limit);
    AdmittedAtMost(times, Closed(0.0, window), 0);
  }

  // ----- guarded calls in flight -----

  datatype Config = Config(
    configured: bool,
    threshold: int,
    recovery: real,
    window: real,
    limit: int,
    retryAttempts: int)

  function Attempts(c: Config): (n: nat)
    ensures n >= 1
    ensures n == if c.retryAttempts >= 1 then c.retryAttempts else 1
  {
    Max(1, c.retryAttempts)
  }

  /**
   * `starts` and `outcomes` are the histories of started calls and of recorded outcomes, and
   * `checkedAt` is the time of the last look at the log.
   */
  datatype Guard = Guard(
    breaker: BreakerState,
    log: seq<real>,
    checkedAt: real,
    clock: real,
    active: set<nat>,
    cancelled: nat,
    starts: seq<real>,
    outcomes: seq<Outcome>)

  function Idle(now: real): Guard {
    Guard(CLOSED, [], now, now, {}, 0, [], [])
  }

  /**
   * A call begins in one step, without a suspension between the breaker check and the log, and
   * ends in another; any number of other calls may begin and end in between.
   */
  datatype Step =
    | Begin(id: nat, at: real)
    | Finish(id: nat, calls: nat -> Attempt<string>, interrupted: nat -> bool, at: real)

  function Next(c: Config, g: Guard, step: Step): Guard {
    match step
    case Begin(id, at) =>
      if id in g.active || !c.configured || Open(g.breaker, c.recovery, at) then g.(clock := at)
      else
        var check := Check(g.log, c.window, c.limit, at);
        if check.allowed
        then g.(clock := at, checkedAt := at, log := check.log, active := g.active + {id}, starts := g.starts + [at])
        else g.(clock := at, checkedAt := at, log := check.log)
    case Finish(id, calls, interrupted, at) =>
      if id !in g.active then g.(clock := at)
      else
        var k := LastCall(calls, interrupted, Attempts(c), 0);
        var last, done := calls(k), g.(clock := at, active := g.active - {id});
        if last.Abort? || (last.Raise? && k < Attempts(c) - 1) then done.(cancelled := g.cancelled + 1)
        else
          var o := if last.Return? then Success else Failure(at);
          done.(breaker := Record(g.breaker, o, c.threshold), outcomes := g.outcomes + [o])
  }

  function Run(c: Config, g: Guard, steps: seq<Step>): Guard {
    if steps == [] then g else Next(c, Run(c, g, steps[..|steps| - 1]), steps[|steps| - 1])
  }

  ghost predicate Timely(steps: seq<Step>, now: real) {
    && (forall i :: 0 <= i < |steps| ==> now <= steps[i].at)
    && (forall i, j :: 0 <= i < j < |steps| ==> steps[i].at <= steps[j].at)
  }

  ghost predicate GuardInvariant(c: Config, g: Guard) {
    && |g.starts| == |g.outcomes| + g.cancelled + |g.active|
    && g.breaker == RecordAll(CLOSED, g.outcomes, c.threshold)
    && g.checkedAt <= g.clock
    && LogInvariant(g.log, g.starts, c.window, c.limit, g.checkedAt)
  }

  lemma BeginKeepsInvariant(c: Config, g: Guard, id: nat, at: real)
    requires GuardInvariant(c, g) && g.clock <= at
    ensures GuardInvariant(c, Next(c, g, Begin(id, at)))
  {
    if !(id in g.active || !c.configured || Open(g.breaker, c.recovery, at)) {
      var check := Check(g.log, c.window, c.limit, at);
      CheckKeepsInvariant(g.log, g.starts, c.window, c.limit, g.checkedAt, at);
      assert |g.active + {id}| == |g.active| + 1;
      assert |g.starts + [at]| == |g.starts| + 1;
      assert Next(c, g, Begin(id, at)).log == check.log;
    }
  }

  lemma FinishKeepsInvariant(c: Config, g: Guard, id: nat, calls: nat -> Attempt<string>, interrupted: nat -> bool,
                             at: real)
    requires GuardInvariant(c, g) && g.clock <= at
    ensures GuardInvariant(c, Next(c, g, Finish(id, calls, interrupted, at)))
  {
    var next := Next(c, g, Finish(id, calls, interrupted, at));
    if next.outcomes != g.outcomes {
      assert next.outcomes[..|next.outcomes| - 1] == g.outcomes;
    }
  }

  lemma NextKeepsInvariant(c: Config, g: Guard, step: Step)
    requires GuardInvariant(c, g) && g.clock <= step.at
    ensures GuardInvariant(c, Next(c, g, step)) && Next(c, g, step).clock == step.at
  {
    match step
    case Begin(id, at) => BeginKeepsInvariant(c, g, id, at);
    case Finish(id, calls, interrupted, at) => FinishKeepsInvariant(c, g, id, calls, interrupted, at);
  }

  lemma {:induction false} RunKeepsInvariant(c: Config, steps: seq<Step>, now: real)
    requires Timely(steps, now)
    ensures GuardInvariant(c, Run(c, Idle(now), steps))
    ensures Run(c, Idle(now), steps).clock == if steps == [] then now else steps[|steps| - 1].at
  {
    if steps == [] {
      assert GuardInvariant(c, Idle(now));
    } else {
      var front, step := steps[..|steps| - 1], steps[|steps| - 1];
      RunKeepsInvariant(c, front, now);
      NextKeepsInvariant(c, Run(c, Idle(now), front), step);
    }
  }

  lemma GuardBounds(c: Config, g: Guard, from: real)
    requires GuardInvariant(c, g)
    ensures Admitted(g.starts, HalfOpen(from, from + c.window)) <= Max(0, c.limit)
    ensures c.window > 0.0 ==> Admitted(g.starts, Closed(from, from + c.window)) <= 2 * Max(0, c.limit)
  {
    AtMostLimitPerWindow(g.starts, c.window, c.limit, from);
    if c.window > 0.0 {
      ClosedWindowBound(g.starts, c.window, c.limit, from);
    }
  }

  /**
   * In every interleaving of guarded calls: each call that started and was not cancelled has
   * recorded exactly one outcome or is still running, however often it retried; the breaker is
   * the function of those outcomes; and any half-open window holds at most `limit` started calls,
   * any closed one at most twice as many.
   */
  lemma EveryCallRecordsOneOutcome(c: Config, steps: seq<Step>, now: real, from: real)
    requires Timely(steps, now)
    ensures var g := Run(c, Idle(now), steps);
            && |g.starts| == |g.outcomes| + g.cancelled + |g.active|
            && g.breaker == RecordAll(CLOSED, g.outcomes, c.threshold)
            && LogInvariant(g.log, g.starts, c.window, c.limit, g.checkedAt)
            && Admitted(g.starts, HalfOpen(from, from + c.window)) <= Max(0, c.limit)
            && (c.window > 0.0 ==> Admitted(g.starts, Closed(from, from + c.window)) <= 2 * Max(0, c.limit))
  {
    RunKeepsInvariant(c, steps, now);
    GuardBounds(c, Run(c, Idle(now), steps), from);
  }

  /** A call starts exactly when the trailing failures do not hold the breaker open and the window has room. */
  lemma StartsExactlyWhenAllowed(c: Config, g: Guard, id: nat, now: real)
    requires GuardInvariant(c, g) && g.clock <= now && id !in g.active
    ensures id in Next(c, g, Begin(id, now)).active <==>
            && c.configured
            && !(TrailingFailures(g.outcomes) >= Max(1, c.threshold)
                 && now < g.outcomes[|g.outcomes| - 1].at + c.recovery)
            && |InWindow(g.starts, c.window, now)| < c.limit
  {
    StateFollowsHistory(g.outcomes, c.threshold, c.recovery, now);
    CheckKeepsInvariant(g.log, g.starts, c.window, c.limit, g.checkedAt, now);
  }

  // ----- what a finished call records -----

  /** The first attempt that settles returns, and every pause before it runs its course. */
  ghost predicate Returns(calls: nat -> Attempt<string>, interrupted: nat -> bool, attempts: nat) {
    exists k :: 0 <= k < attempts && calls(k).Return?
                && forall j :: 0 <= j < k ==> calls(j).Raise? && !interrupted(j)
  }

  /** Every attempt raises, and every pause between them runs its course. */
  ghost predicate Exhausts(calls: nat -> Attempt<string>, interrupted: nat -> bool, attempts: nat) {
    forall j :: 0 <= j < attempts ==> calls(j).Raise? && (j < attempts - 1 ==> !interrupted(j))
  }

  lemma LastCallSettles(calls: nat -> Attempt<string>, interrupted: nat -> bool, attempts: nat)
    requires attempts >= 1
    ensures var k := LastCall(calls, interrupted, attempts, 0);
            && (Returns(calls, interrupted, attempts) <==> calls(k).Return?)
            && (Exhausts(calls, interrupted, attempts) <==> calls(k).Raise? && k == attempts - 1)
  {
    var k := LastCall(calls, interrupted, attempts, 0);
    if Returns(calls, interrupted, attempts) {
      var r :| 0 <= r < attempts && calls(r).Return? && forall j :: 0 <= j < r ==> calls(j).Raise? && !interrupted(j);
      assert r == k;
    }
  }

  /**
   * A call that returns in the end records exactly a success, one that raises on every attempt
   * exactly a failure at its end, and one that is cut short nothing.
   */
  lemma FinishRecords(c: Config, g: Guard, id: nat, calls: nat -> Attempt<string>, interrupted: nat -> bool, at: real)
    requires id in g.active
    ensures var next := Next(c, g, Finish(id, calls, interrupted, at));
            var good, bad := Returns(calls, interrupted, Attempts(c)), Exhausts(calls, interrupted, Attempts(c));
            && next.active == g.active - {id} && !(good && bad)
            && (good ==> next.outcomes == g.outcomes + [Success] && next.cancelled == g.cancelled)
            && (bad ==> next.outcomes == g.outcomes + [Failure(at)] && next.cancelled == g.cancelled)
            && (!good && !bad ==> next.outcomes == g.outcomes && next.cancelled == g.cancelled + 1)
  {
    LastCallSettles(calls, interrupted, Attempts(c));
  }

  ghost function ResultOf(c: Config, step: Step): seq<Outcome>
    requires step.Finish?
  {
    if Returns(step.calls, step.interrupted, Attempts(c)) then [Success]
    else if Exhausts(step.calls, step.interrupted, Attempts(c)) then [Failure(step.at)]
    else []
  }

  /** The results of the calls that finished in a run, in the order they finished. */
  ghost function Results(c: Config, steps: seq<Step>, now: real): seq<Outcome> {
    if steps == [] then []
    else
      var front, step := steps[..|steps| - 1], steps[|steps| - 1];
      Results(c, front, now)
      + if step.Finish? && step.id in Run(c, Idle(now), front).active then ResultOf(c, step) else []
  }

  /** The recorded outcomes are those results. */
  lemma {:induction false} OutcomesAreResults(c: Config, steps: seq<Step>, now: real)
    ensures Run(c, Idle(now), steps).outcomes == Results(c, steps, now)
  {
    if steps != [] {
      var front, step := steps[..|steps| - 1], steps[|steps| - 1];
      var g := Run(c, Idle(now), front);
      OutcomesAreResults(c, front, now);
      assert g.outcomes + [] == g.outcomes;
      if step.Finish? && step.id in g.active {
        FinishRecords(c, g, step.id, step.calls, step.interrupted, step.at);
      }
    }
  }

  /**
   * In every run the breaker is open exactly when the last `threshold` finished calls (at least
   * one) all raised on every attempt and the recovery time since the last of them has not passed.
   */
  lemma BreakerFollowsCalls(c: Config, steps: seq<Step>, now: real, at: real)
    requires Timely(steps, now)
    ensures var results, m := Results(c, steps, now), Max(1, c.threshold);
            Open(Run(c, Idle(now), steps).breaker, c.recovery, at) <==>
            && |results| >= m
            && (forall i :: |results| - m <= i < |results| ==> results[i].Failure?)
            && at < results[|results| - 1].at + c.recovery
  {
    RunKeepsInvariant(c, steps, now);
    OutcomesAreResults(c, steps, now);
    OpenAfter(Results(c, steps, now), c.threshold, c.recovery, at);
  }

  lemma OpenAfter(os: seq<Outcome>, threshold: int, recovery: real, at: real)
    ensures var m := Max(1, threshold);
            Open(RecordAll(CLOSED, os, threshold), recovery, at) <==>
            && |os| >= m && (forall i :: |os| - m <= i < |os| ==> os[i].Failure?)
            && at < os[|os| - 1].at + recovery
  {
    StateFollowsHistory(os, threshold, recovery, at);
    TrailingIsAtLeast(os, Max(1, threshold));
  }

  lemma TrailingIsAtLeast(os: seq<Outcome>, m: nat)
    ensures TrailingFailures(os) >= m <==> |os| >= m && forall i :: |os| - m <= i < |os| ==> os[i].Failure?
  {
    var n := TrailingFailures(os);
    if n < m <= |os| {
      assert os[|os| - n - 1].Success?;
    }
  }

  /** A run in which every finished call returns or is cut short never opens the breaker. */
  lemma ReturningCallsKeepBreakerClosed(c: Config, steps: seq<Step>, now: real, at: real)
    requires Timely(steps, now)
    requires forall step :: step in steps && step.Finish? ==> !Exhausts(step.calls, step.interrupted, Attempts(c))
    ensures !Open(Run(c, Idle(now), steps).breaker, c.recovery, at)
  {
    NoFailures(c, steps, now);
    BreakerFollowsCalls(c, steps, now, at);
  }

  lemma {:induction false} NoFailures(c: Config, steps: seq<Step>, now: real)
    requires forall step :: step in steps && step.Finish? ==> !Exhausts(step.calls, step.interrupted, Attempts(c))
    ensures forall i :: 0 <= i < |Results(c, steps, now)| ==> Results(c, steps, now)[i].Success?
  {
    if steps != [] {
      NoFailures(c, steps[..|steps| - 1], now);
      assert steps[|steps| - 1] in steps;
    }
  }
}
