/** backend/app/utils/resilience.py: the circuit breaker and the retry loop. */
module Resilience {
  import opened Common

  // ----- circuit breaker -----

  /** One recorded outcome of a guarded call; clock readings are in seconds. */
  datatype Outcome = Success | Failure(at: real)

  datatype BreakerState = BreakerState(failureCount: nat, openedAt: Option<real>)

  const CLOSED := BreakerState(0, None)

  function Record(s: BreakerState, o: Outcome, threshold: int): BreakerState {
    match o
    case Success => CLOSED
    case Failure(at) =>
      BreakerState(s.failureCount + 1, if s.failureCount + 1 >= threshold then Some(at) else s.openedAt)
  }

  function RecordAll(s: BreakerState, os: seq<Outcome>, threshold: int): BreakerState {
    if os == [] then s else Record(RecordAll(s, os[..|os| - 1], threshold), os[|os| - 1], threshold)
  }

  predicate Open(s: BreakerState, recovery: real, now: real) {
    s.openedAt.Some? && now < s.openedAt.value + recovery
  }

  /** The number of failures since the last success. */
  function TrailingFailures(os: seq<Outcome>): (n: nat)
    ensures n <= |os|
    ensures forall i :: |os| - n <= i < |os| ==> os[i].Failure?
    ensures n < |os| ==> os[|os| - n - 1].Success?
  {
    if os == [] || os[|os| - 1].Success? then 0 else 1 + TrailingFailures(os[..|os| - 1])
  }

  class CircuitBreaker {
    const threshold: int
    const recovery: real
    var failureCount: nat
    var openedAt: Option<real>
    ghost var history: seq<Outcome>

    ghost predicate Valid()
      reads this
    {
      State() == RecordAll(CLOSED, history, threshold)
    }

    function State(): BreakerState
      reads this
    {
      BreakerState(failureCount, openedAt)
    }

    constructor (threshold: int, recovery: real)
      ensures Valid() && history == [] && this.threshold == threshold && this.recovery == recovery
    {
      this.threshold, this.recovery := threshold, recovery;
      failureCount, openedAt, history := 0, None, [];
    }

    method IsOpen(now: real) returns (open: bool)
      requires Valid()
      ensures open <==>
              && TrailingFailures(history) >= Max(1, threshold)
              && now < history[|history| - 1].at + recovery
    {
      StateFollowsHistory(history, threshold, recovery, now);
      if openedAt.None? {
        return false;
      }
      open := now < openedAt.value + recovery;
    }

    method RecordSuccess()
      requires Valid()
      modifies this
      ensures Valid() && history == old(history) + [Success]
    {
      failureCount := 0;
      openedAt := None;
      history := history + [Success];
      assert history[..|history| - 1] == old(history);
    }

    method RecordFailure(now: real)
      requires Valid()
      modifies this
      ensures Valid() && history == old(history) + [Failure(now)]
    {
      failureCount := failureCount + 1;
      if failureCount >= threshold {
        openedAt := Some(now);
      }
      history := history + [Failure(now)];
      assert history[..|history| - 1] == old(history);
    }
  }

  /**
   * The breaker is a function of the outcome history: the count is the trailing run of failures,
   * and it is open exactly when that run reaches the threshold (a threshold below one acts as
   * one) and the recovery time since the last failure has not passed.
   */
  lemma {:induction false} StateFollowsHistory(os: seq<Outcome>, threshold: int, recovery: real, now: real)
    ensures RecordAll(CLOSED, os, threshold).failureCount == TrailingFailures(os)
    ensures RecordAll(CLOSED, os, threshold).openedAt
         == if TrailingFailures(os) >= Max(1, threshold) then Some(os[|os| - 1].at) else None
    ensures Open(RecordAll(CLOSED, os, threshold), recovery, now)
       <==> TrailingFailures(os) >= Max(1, threshold) && now < os[|os| - 1].at + recovery
  {
    if os != [] {
      StateFollowsHistory(os[..|os| - 1], threshold, recovery, now);
    }
  }

  // ----- retry -----

  /** What one call of the retried function does: `Abort` is an exception the loop does not catch. */
  datatype Attempt<T> = Return(value: T) | Raise(error: string) | Abort(error: string)

  datatype RetryError = BadAttempts | LastError(error: string) | Uncaught(error: string) | Cancelled

  function Pow2(n: nat): nat {
    if n == 0 then 1 else 2 * Pow2(n - 1)
  }

  function BaseDelay(backoff: real): real {
    if backoff > 0.01 then backoff else 0.01
  }

  function Delay(d: real, n: nat): real {
    if n == 0 then d else Delay(d, n - 1) * 2.0
  }

  function TotalSleep(d: real, n: nat): real {
    if n == 0 then 0.0 else TotalSleep(d, n - 1) + Delay(d, n - 1)
  }

  /**
   * The index of the last call made: the first one not caught, the first one whose pause is
   * interrupted, or the last one allowed.
   */
  function LastCall<T>(calls: nat -> Attempt<T>, interrupted: nat -> bool, attempts: nat, from: nat): (k: nat)
    requires from < attempts
    ensures from <= k < attempts
    ensures forall j :: from <= j < k ==> calls(j).Raise? && !interrupted(j)
    ensures calls(k).Raise? ==> k == attempts - 1 || interrupted(k)
    decreases attempts - from
  {
    if calls(from).Raise? && from < attempts - 1 && !interrupted(from)
    then LastCall(calls, interrupted, attempts, from + 1) else from
  }

  /**
   * Runs the call until it settles, a pause is cancelled, or the attempts are used up. `made`
   * counts the calls and `slept` adds up the pauses that were not cut short.
   */
  method AsyncRetry<T>(calls: nat -> Attempt<T>, interrupted: nat -> bool, attempts: int, backoff: real)
    returns (r: Result<T, RetryError>, made: nat, slept: real)
    ensures attempts < 1 ==> r == Err(BadAttempts) && made == 0 && slept == 0.0
    ensures attempts >= 1 ==> made == LastCall(calls, interrupted, attempts, 0) + 1
    ensures attempts >= 1 && calls(made - 1).Return? ==> r == Ok(calls(made - 1).value)
    ensures attempts >= 1 && calls(made - 1).Abort? ==> r == Err(Uncaught(calls(made - 1).error))
    ensures attempts >= 1 && calls(made - 1).Raise? ==>
              r == Err(if made == attempts then LastError(calls(made - 1).error) else Cancelled)
    ensures attempts >= 1 ==> slept == TotalSleep(if backoff > 0.01 then backoff else 0.01, made - 1)
  {
    made, slept := 0, 0.0;
    if attempts < 1 {
      return Err(BadAttempts), made, slept;
    }
    var delay := BaseDelay(backoff);
    var index := 0;
    while true
      invariant 0 <= index < attempts && made == index
      invariant LastCall(calls, interrupted, attempts, 0) == LastCall(calls, interrupted, attempts, index)
      invariant delay == Delay(BaseDelay(backoff), index)
      invariant slept == TotalSleep(BaseDelay(backoff), index)
      decreases attempts - index
    {
      made := made + 1;
      match calls(index) {
        case Return(v) => return Ok(v), made, slept;
        case Abort(e) => return Err(Uncaught(e)), made, slept;
        case Raise(e) =>
          if index == attempts - 1 {
            return Err(LastError(e)), made, slept;
          }
      }
      if interrupted(index) {
        return Err(Cancelled), made, slept;
      }
      slept := slept + delay;
      delay := delay * 2.0;
      index := index + 1;
    }
  }

  /** Doubling pauses add up to a geometric sum: `n` pauses last d * (2^n - 1) in all. */
  lemma {:induction false} TotalSleepIsGeometric(d: real, n: nat)
    ensures Delay(d, n) == d * Pow2(n) as real
    ensures TotalSleep(d, n) == d * (Pow2(n) - 1) as real
  {
    if n > 0 {
      TotalSleepIsGeometric(d, n - 1);
      var p := Pow2(n - 1) as real;
      assert Pow2(n) as real == 2.0 * p;
      assert d * (p - 1.0) + d * p == d * (2.0 * p - 1.0);
    }
  }
}
