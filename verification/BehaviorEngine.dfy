/** backend/app/intelligence/behavior_engine.py */
module BehaviorEngine {
  import opened Common
  import opened Models
  import opened RiskEngine

  /** One loaded history item; `None` is a timestamp that could not be parsed. */
  datatype Activity = Activity(decision: Decision, riskScore: int, source: Option<string>, timestamp: Option<int>)

  datatype BehaviorProfile = BehaviorProfile(
    requestCount: nat,
    blockedCount: nat,
    externalCount: nat,
    suspiciousSequenceScore: int,
    driftScore: int)

  // Clock readings are in microseconds, the resolution of the stored timestamps.
  const HOUR: int := 3_600_000_000

  predicate Recent(a: Activity, now: int) {
    a.timestamp.None? || a.timestamp.value >= now - HOUR
  }

  function IsRequest(now: int): Activity -> bool { (a: Activity) => Recent(a, now) }

  function IsBlocked(now: int): Activity -> bool { (a: Activity) => Recent(a, now) && Severe(a.decision) }

  function IsFromOutside(now: int): Activity -> bool { (a: Activity) => Recent(a, now) && IsExternal(a.source) }

  function Count(items: seq<Activity>, p: Activity -> bool): (n: nat)
    ensures n <= |items|
  {
    if items == [] then 0
    else Count(items[..|items| - 1], p) + if p(items[|items| - 1]) then 1 else 0
  }

  function RiskSum(items: seq<Activity>): int {
    if items == [] then 0 else RiskSum(items[..|items| - 1]) + items[|items| - 1].riskScore
  }

  /** The last twenty list items: the oldest ones, because the list is loaded newest first. */
  function Baseline(items: seq<Activity>): seq<Activity> {
    LastN(items, 20)
  }

  /** Average baseline risk of at least 60, compared without dividing. */
  predicate ElevatedBaseline(items: seq<Activity>) {
    items != [] && RiskSum(Baseline(items)) >= 60 * |Baseline(items)|
  }

  function SuspiciousScore(requests: int, blocked: int, external: int): int {
    (if blocked >= 3 then 25 else 0) + (if external >= 4 then 25 else 0) + (if requests >= 40 then 30 else 0)
  }

  function DriftScore(elevated: bool, m: Metadata): int {
    (if elevated then 25 else 0) + (if IsProduction(m) && IsExternal(m.source) then 20 else 0)
  }

  function Profile(items: seq<Activity>, m: Metadata, now: int): BehaviorProfile {
    var requests := Count(items, IsRequest(now));
    var blocked := Count(items, IsBlocked(now));
    var external := Count(items, IsFromOutside(now)) + if IsExternal(m.source) then 1 else 0;
    BehaviorProfile(requests, blocked, external,
                    Min(100, SuspiciousScore(requests, blocked, external)),
                    Min(100, DriftScore(ElevatedBaseline(items), m)))
  }

  method Analyze(items: seq<Activity>, m: Metadata, now: int) returns (p: BehaviorProfile)
    ensures p == Profile(items, m, now)
  {
    var requestCount: nat, blockedCount: nat, externalCount: nat := 0, 0, 0;
    if IsExternal(m.source) {
      externalCount := externalCount + 1;
    }
    for i := 0 to |items|
      invariant requestCount == Count(items[..i], IsRequest(now))
      invariant blockedCount == Count(items[..i], IsBlocked(now))
      invariant externalCount == Count(items[..i], IsFromOutside(now)) + if IsExternal(m.source) then 1 else 0
    {
      var item := items[i];
      assert items[..i + 1][..i] == items[..i];
      if !Recent(item, now) {
        continue;
      }
      requestCount := requestCount + 1;
      if Severe(item.decision) {
        blockedCount := blockedCount + 1;
      }
      if IsExternal(item.source) {
        externalCount := externalCount + 1;
      }
    }
    assert items[..|items|] == items;
    var suspicious, drift := 0, 0;
    if blockedCount >= 3 {
      suspicious := suspicious + 25;
    }
    if externalCount >= 4 {
      suspicious := suspicious + 25;
    }
    if requestCount >= 40 {
      suspicious := suspicious + 30;
    }
    if ElevatedBaseline(items) {
      drift := drift + 25;
    }
    if IsProduction(m) && IsExternal(m.source) {
      drift := drift + 20;
    }
    p := BehaviorProfile(requestCount, blockedCount, externalCount, Min(100, suspicious), Min(100, drift));
  }

  lemma {:induction false} CountMonotone(a: seq<Activity>, p: Activity -> bool, b: seq<Activity>, q: Activity -> bool)
    requires |a| == |b|
    requires forall i :: 0 <= i < |a| && p(a[i]) ==> q(b[i])
    ensures Count(a, p) <= Count(b, q)
  {
    if a != [] {
      CountMonotone(a[..|a| - 1], p, b[..|b| - 1], q);
    }
  }

  lemma {:induction false} CountZero(a: seq<Activity>, p: Activity -> bool)
    requires forall i :: 0 <= i < |a| ==> !p(a[i])
    ensures Count(a, p) == 0
  {
    if a != [] {
      CountZero(a[..|a| - 1], p);
    }
  }

  lemma {:induction false} CountAll(a: seq<Activity>, p: Activity -> bool)
    requires forall i :: 0 <= i < |a| ==> p(a[i])
    ensures Count(a, p) == |a|
  {
    if a != [] {
      CountAll(a[..|a| - 1], p);
    }
  }

  lemma {:induction false} RiskSumMonotone(a: seq<Activity>, b: seq<Activity>)
    requires |a| == |b|
    requires forall i :: 0 <= i < |a| ==> a[i].riskScore <= b[i].riskScore
    ensures RiskSum(a) <= RiskSum(b)
  {
    if a != [] {
      RiskSumMonotone(a[..|a| - 1], b[..|b| - 1]);
    }
  }

  lemma {:induction false} RiskSumBound(a: seq<Activity>, bound: int)
    requires forall i :: 0 <= i < |a| ==> a[i].riskScore <= bound
    ensures RiskSum(a) <= bound * |a|
  {
    if a != [] {
      RiskSumBound(a[..|a| - 1], bound);
    }
  }
}
