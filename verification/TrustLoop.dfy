/** Properties of whole runs of the trust loop. */
module TrustLoop {
  import opened Common
  import opened Models
  import opened DecisionEngine
  import opened BehaviorEngine
  import opened AnomalyDetector
  import opened IntelligenceOrchestrator

  // ----- order preservation -----

  /** `bad` records the same request as `good`, with risk and decision at least as harsh. */
  ghost predicate RowBelow(bad: DecisionRow, good: DecisionRow) {
    && bad.source == good.source
    && bad.createdAt == good.createdAt
    && bad.riskScore >= good.riskScore
    && (Severe(good.decision) ==> Severe(bad.decision))
  }

  ghost predicate RowsBelow(bad: seq<DecisionRow>, good: seq<DecisionRow>) {
    |bad| == |good| && forall i :: 0 <= i < |bad| ==> RowBelow(bad[i], good[i])
  }

  ghost predicate Below(bad: LoopState, good: LoopState) {
    bad.trust <= good.trust && RowsBelow(bad.rows, good.rows)
  }

  ghost predicate OutcomeBelow(bad: Outcome, good: Outcome) {
    && bad.risk >= good.risk
    && (Severe(good.decision) ==> Severe(bad.decision))
    && bad.anomaly >= good.anomaly
    && bad.delta <= good.delta
    && Below(bad.next, good.next)
  }

  lemma {:induction false} InsertBelow(bad: seq<DecisionRow>, good: seq<DecisionRow>, b: DecisionRow, g: DecisionRow)
    requires RowsBelow(bad, good) && RowBelow(b, g)
    ensures RowsBelow(InsertRow(bad, b), InsertRow(good, g))
  {
    if bad != [] && b.createdAt < bad[0].createdAt {
      InsertBelow(bad[1..], good[1..], b, g);
    }
  }

  lemma ProfileBelow(bad: seq<DecisionRow>, good: seq<DecisionRow>, actorInOrg: bool, m: RiskEngine.Metadata, now: int)
    requires RowsBelow(bad, good)
    ensures var b, g := Profile(Loaded(bad, actorInOrg), m, now), Profile(Loaded(good, actorInOrg), m, now);
            && g.requestCount <= b.requestCount && g.blockedCount <= b.blockedCount
            && g.externalCount <= b.externalCount
            && g.suspiciousSequenceScore <= b.suspiciousSequenceScore && g.driftScore <= b.driftScore
  {
    var b, g := Loaded(bad, actorInOrg), Loaded(good, actorInOrg);
    CountMonotone(g, IsRequest(now), b, IsRequest(now));
    CountMonotone(g, IsBlocked(now), b, IsBlocked(now));
    CountMonotone(g, IsFromOutside(now), b, IsFromOutside(now));
    RiskSumMonotone(Baseline(g), Baseline(b));
    assert ElevatedBaseline(g) ==> ElevatedBaseline(b);
  }

  /** Lower trust and a harsher history yield a change of trust that is no better. */
  lemma DeltaBelow(badRisk: int, goodRisk: int, badAnomaly: int, goodAnomaly: int, matches: seq<PolicyMatch>,
                   status: AgentStatus)
    requires badRisk >= goodRisk && badAnomaly >= goodAnomaly
    ensures var bad, good := Decide(badRisk, matches, status).decision, Decide(goodRisk, matches, status).decision;
            TrustEngine.Delta(badAnomaly >= 35, badAnomaly, bad, badRisk, |matches|)
            <= TrustEngine.Delta(goodAnomaly >= 35, goodAnomaly, good, goodRisk, |matches|)
  {
    DecisionMonotoneInRisk(goodRisk, badRisk, matches, status);
  }

  lemma StepBelow(bad: LoopState, good: LoopState, q: Request)
    requires Below(bad, good)
    ensures OutcomeBelow(Step(bad, q), Step(good, q))
  {
    var b, g := Step(bad, q), Step(good, q);
    RiskEngine.RiskAntitoneInTrust(q.findings, |q.matches|, bad.trust, good.trust, q.metadata, q.gemini);
    DecisionMonotoneInRisk(g.risk, b.risk, q.matches, q.status);
    InsertBelow(bad.rows, good.rows, DecisionRow(b.decision, b.risk, q.metadata.source, q.createdAt),
                DecisionRow(g.decision, g.risk, q.metadata.source, q.createdAt));
    ProfileBelow(b.next.rows, g.next.rows, q.actorInOrg, q.metadata, q.now);
    AnomalyMonotone(Profile(Loaded(g.next.rows, q.actorInOrg), q.metadata, q.now), g.risk,
                    Profile(Loaded(b.next.rows, q.actorInOrg), q.metadata, q.now), b.risk);
    DeltaBelow(b.risk, g.risk, b.anomaly, g.anomaly, q.matches, q.status);
  }

  ghost predicate TraceBelow(bad: seq<Outcome>, good: seq<Outcome>) {
    |bad| == |good| && forall i :: 0 <= i < |bad| ==> OutcomeBelow(bad[i], good[i])
  }

  lemma {:induction false} TracesKeepOrder(bad: LoopState, good: LoopState, qs: seq<Request>)
    requires Below(bad, good)
    ensures TraceBelow(Trace(bad, qs), Trace(good, qs))
    decreases |qs|
  {
    if qs != [] {
      StepBelow(bad, good, qs[0]);
      TracesKeepOrder(Step(bad, qs[0]).next, Step(good, qs[0]).next, qs[1..]);
    }
  }

  lemma {:induction false} FinalEndsTrace(s: LoopState, qs: seq<Request>)
    ensures Final(s, qs) == if qs == [] then s else Trace(s, qs)[|qs| - 1].next
    decreases |qs|
  {
    if qs != [] {
      FinalEndsTrace(Step(s, qs[0]).next, qs[1..]);
    }
  }

  /**
   * Two runs over the same requests, one from no higher trust and a no better history: at every
   * step the worse run has trust no higher and risk no lower, and it stops the request whenever
   * the better run does.
   */
  lemma RunsKeepOrder(bad: LoopState, good: LoopState, qs: seq<Request>)
    requires Below(bad, good)
    ensures forall i :: 0 <= i < |qs| ==> OutcomeBelow(Trace(bad, qs)[i], Trace(good, qs)[i])
    ensures Below(Final(bad, qs), Final(good, qs))
  {
    TracesKeepOrder(bad, good, qs);
    FinalEndsTrace(bad, qs);
    FinalEndsTrace(good, qs);
  }

  // ----- bounds -----

  /** Trust stays in 0..100 in every run and moves by -40..+6 per request. */
  lemma {:induction false} TrustStaysInRange(s: LoopState, qs: seq<Request>)
    requires 0 <= s.trust <= 100
    ensures 0 <= Final(s, qs).trust <= 100
    ensures s.trust - 40 * |qs| <= Final(s, qs).trust <= s.trust + 6 * |qs|
    ensures forall i :: 0 <= i < |qs| ==> -40 <= Trace(s, qs)[i].delta <= 6
    decreases |qs|
  {
    if qs != [] {
      var o := Step(s, qs[0]);
      TrustEngine.DeltaBounds(o.anomaly >= 35, o.anomaly, o.decision, o.risk, |qs[0].matches|);
      TrustStaysInRange(o.next, qs[1..]);
    }
  }

  ghost predicate Stopped(q: Request) {
    q.status.Blocked? || q.status.Quarantined?
  }

  lemma StoppedStep(s: LoopState, q: Request)
    requires Stopped(q)
    ensures Severe(Step(s, q).decision) && Step(s, q).delta <= -8
  {
  }

  /** While the agent is blocked or quarantined every request costs at least 8 points of trust. */
  lemma {:induction false} TrustDecays(s: LoopState, qs: seq<Request>)
    requires forall q :: q in qs ==> Stopped(q)
    requires s.trust >= 0
    ensures Final(s, qs).trust <= Max(0, s.trust - 8 * |qs|)
    decreases |qs|
  {
    if qs != [] {
      var o := Step(s, qs[0]);
      StoppedStep(s, qs[0]);
      TrustDecays(o.next, qs[1..]);
    }
  }

  // ----- recovery -----

  /** No finding, policy match, production or external metadata, Gemini signal, or status override. */
  ghost predicate Clean(q: Request) {
    && q.findings == [] && q.matches == []
    && !RiskEngine.IsProduction(q.metadata) && !RiskEngine.IsExternal(q.metadata.source)
    && RiskEngine.GeminiScore(q.gemini) == 0
    && (q.status.Operational? || q.status.Warning?)
  }

  ghost predicate CleanRow(r: DecisionRow) {
    r.decision.Allow? && r.riskScore <= 30 && !RiskEngine.IsExternal(r.source)
  }

  ghost predicate CleanHistory(s: LoopState) {
    forall r :: r in s.rows ==> CleanRow(r)
  }

  /** On a clean history the only anomaly signal left is the request spike. */
  lemma CleanProfile(rows: seq<DecisionRow>, actorInOrg: bool, m: RiskEngine.Metadata, now: int)
    requires forall r :: r in rows ==> CleanRow(r)
    requires !RiskEngine.IsExternal(m.source)
    ensures var p := Profile(Loaded(rows, actorInOrg), m, now);
            p.blockedCount == 0 && p.externalCount == 0 && p.driftScore == 0
            && p.requestCount <= |rows|
            && p.suspiciousSequenceScore == if p.requestCount >= 40 then 30 else 0
  {
    var items := Loaded(rows, actorInOrg);
    forall i | 0 <= i < |items|
      ensures !IsBlocked(now)(items[i]) && !IsFromOutside(now)(items[i]) && items[i].riskScore <= 30
    {
      assert CleanRow(rows[i]);
    }
    CountZero(items, IsBlocked(now));
    CountZero(items, IsFromOutside(now));
    RiskSumBound(Baseline(items), 30);
  }

  lemma CleanStep(s: LoopState, q: Request)
    requires 0 <= s.trust <= 100 && CleanHistory(s) && Clean(q)
    ensures var o := Step(s, q);
            && CleanHistory(o.next)
            && o.decision == Allow && o.risk == RiskEngine.TrustPenaltyOf(s.trust)
            && o.delta >= 0
            && (|s.rows| < 39 ==> o.anomaly == 0 && o.delta == if s.trust >= 29 then 6 else 4)
            && |o.next.rows| == |s.rows| + 1 && o.next.trust == Min(100, s.trust + o.delta)
  {
    var o := Step(s, q);
    InsertRowContents(s.rows, NewRow(s, q));
    CleanProfile(o.next.rows, q.actorInOrg, q.metadata, q.now);
  }

  /**
   * Forty clean requests within the hour do make the agent look anomalous to an actor of its own
   * organization, but the penalty never outweighs what the request itself earns.
   */
  lemma SpikeIsFlaggedButHarmless(s: LoopState, q: Request)
    requires 0 <= s.trust <= 100 && CleanHistory(s) && Clean(q) && |s.rows| >= 39 && q.actorInOrg
    requires q.createdAt >= q.now - HOUR && forall r :: r in s.rows ==> r.createdAt >= q.now - HOUR
    ensures Step(s, q).anomaly == 35 && Step(s, q).delta == if s.trust >= 29 then 2 else 0
  {
    CleanStep(s, q);
    var rows := Step(s, q).next.rows;
    InsertRowContents(s.rows, NewRow(s, q));
    CleanProfile(rows, true, q.metadata, q.now);
    forall i | 0 <= i < |Window(rows)| ensures IsRequest(q.now)(Window(rows)[i]) {
      assert rows[i] in rows;
    }
    CountAll(Window(rows), IsRequest(q.now));
  }

  /** Clean requests never lower trust, however many arrive and however fast. */
  lemma {:induction false} CleanRunNeverLowersTrust(s: LoopState, qs: seq<Request>)
    requires 0 <= s.trust <= 100 && CleanHistory(s)
    requires forall q :: q in qs ==> Clean(q)
    ensures s.trust <= Final(s, qs).trust <= 100
    ensures CleanHistory(Final(s, qs))
    ensures forall i :: 0 <= i < |qs| ==> Trace(s, qs)[i].decision == Allow && Trace(s, qs)[i].delta >= 0
    decreases |qs|
  {
    if qs != [] {
      CleanStep(s, qs[0]);
      CleanRunNeverLowersTrust(Step(s, qs[0]).next, qs[1..]);
    }
  }

  function CleanGain(trust: int): int {
    Min(100, trust + if trust >= 29 then 6 else 4)
  }

  /** How many gains of four points it takes to reach the threshold of 29, below which they apply. */
  function SmallGains(trust: int): int
    requires 0 <= trust < 29
  {
    (32 - trust) / 4
  }

  /** Trust after `n` further clean requests, while the history holds fewer than 40 of them. */
  function Recovered(trust: int, n: nat): int
    requires 0 <= trust <= 100
  {
    if trust >= 29 then Min(100, trust + 6 * n)
    else
      var k := SmallGains(trust);
      if n <= k then trust + 4 * n else Min(100, trust + 4 * k + 6 * (n - k))
  }

  function IteratedGain(trust: int, n: nat): int
    decreases n
  {
    if n == 0 then trust else IteratedGain(CleanGain(trust), n - 1)
  }

  lemma SmallGainStep(trust: int)
    requires 0 <= trust < 29
    ensures SmallGains(trust) >= 1
    ensures trust + 4 < 29 ==> SmallGains(trust + 4) == SmallGains(trust) - 1
    ensures trust + 4 >= 29 ==> SmallGains(trust) == 1
  {
  }

  lemma RecoveredStep(trust: int, n: nat)
    requires 0 <= trust <= 100 && n > 0
    ensures Recovered(CleanGain(trust), n - 1) == Recovered(trust, n)
  {
    if trust < 29 {
      SmallGainStep(trust);
    }
  }

  /** The closed form is the iteration of the single clean gain. */
  lemma {:induction false} RecoveredIsIterated(trust: int, n: nat)
    requires 0 <= trust <= 100
    ensures IteratedGain(trust, n) == Recovered(trust, n)
    decreases n
  {
    if n > 0 {
      RecoveredIsIterated(CleanGain(trust), n - 1);
      RecoveredStep(trust, n);
    }
  }

  /** The number of clean requests that restore full trust. */
  function RequestsToFull(trust: int): (n: nat)
    requires 0 <= trust <= 100
    ensures n <= 20
  {
    if trust >= 29 then (105 - trust) / 6
    else
      var k := SmallGains(trust);
      k + (105 - trust - 4 * k) / 6
  }

  lemma RecoveredInFull(trust: int, n: nat)
    requires 0 <= trust <= 100
    ensures Recovered(trust, n) == 100 <==> n >= RequestsToFull(trust)
  {
  }

  /** A run of clean requests from a clean history that stays below the request spike. */
  ghost predicate Recovering(s: LoopState, qs: seq<Request>) {
    && 0 <= s.trust <= 100 && CleanHistory(s)
    && (forall q :: q in qs ==> Clean(q))
    && |s.rows| + |qs| < 40
  }

  lemma FirstCleanStep(s: LoopState, qs: seq<Request>)
    requires Recovering(s, qs) && qs != []
    ensures Recovering(Step(s, qs[0]).next, qs[1..])
    ensures Step(s, qs[0]).next.trust == CleanGain(s.trust)
  {
    assert Clean(qs[0]);
    CleanStep(s, qs[0]);
  }

  lemma {:induction false} RecoveringRun(s: LoopState, qs: seq<Request>)
    requires Recovering(s, qs)
    ensures Final(s, qs).trust == IteratedGain(s.trust, |qs|)
    decreases |qs|
  {
    if qs != [] {
      FirstCleanStep(s, qs);
      assert IteratedGain(s.trust, |qs|) == IteratedGain(CleanGain(s.trust), |qs[1..]|);
      RecoveringRun(Step(s, qs[0]).next, qs[1..]);
    }
  }

  /** Trust follows the closed form, and is full exactly from `RequestsToFull` requests on. */
  lemma RecoveryIsExact(s: LoopState, qs: seq<Request>)
    requires Recovering(s, qs)
    ensures Final(s, qs).trust == Recovered(s.trust, |qs|)
    ensures Final(s, qs).trust == 100 <==> |qs| >= RequestsToFull(s.trust)
  {
    RecoveringRun(s, qs);
    RecoveredIsIterated(s.trust, |qs|);
    RecoveredInFull(s.trust, |qs|);
  }

  lemma {:induction false} RunSplits(s: LoopState, a: seq<Request>, b: seq<Request>)
    ensures Final(s, a + b) == Final(Final(s, a), b)
    decreases |a|
  {
    if a == [] {
      assert a + b == b;
    } else {
      assert (a + b)[1..] == a[1..] + b;
      RunSplits(Step(s, a[0]).next, a[1..], b);
    }
  }

  /** From zero trust it takes exactly twenty clean requests to reach full trust: 19 stop at 98. */
  lemma RecoveryFromZero(qs: seq<Request>)
    requires forall q :: q in qs ==> Clean(q)
    ensures |qs| == 19 ==> Final(LoopState(0, []), qs).trust == 98
    ensures |qs| == 20 ==> Final(LoopState(0, []), qs).trust == 100
  {
    if |qs| == 19 || |qs| == 20 {
      RecoveryIsExact(LoopState(0, []), qs);
    }
  }

  /**
   * From any trust and an empty history, twenty consecutive clean requests restore full trust, and
   * any number of further ones keeps it there, through the spike of the fortieth request and after.
   */
  lemma TrustRecovers(trust: int, qs: seq<Request>)
    requires 0 <= trust <= 100 && |qs| >= 20
    requires forall q :: q in qs ==> Clean(q)
    ensures Final(LoopState(trust, []), qs).trust == 100
  {
    var s, zero := LoopState(trust, []), LoopState(0, []);
    var head, tail := qs[..20], qs[20..];
    assert qs == head + tail;
    RunSplits(s, head, tail);
    RecoveryFromZero(head);
    RunsKeepOrder(zero, s, head);
    CleanRunNeverLowersTrust(s, head);
    CleanRunNeverLowersTrust(Final(s, head), tail);
  }
}
