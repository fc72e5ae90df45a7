/** What one request does to an agent's trust, in points, contribution by contribution. */
module TrustEffects {
  import opened Common
  import opened Models
  import opened DecisionEngine
  import opened BehaviorEngine
  import opened AnomalyDetector
  import opened IntelligenceOrchestrator
  import SignalEffects

  // ----- quiet histories -----

  /** A stored request that was not stopped and did not come from outside. */
  ghost predicate QuietRow(r: DecisionRow) {
    !Severe(r.decision) && !RiskEngine.IsExternal(r.source)
  }

  /** Too few such requests for a spike. */
  ghost predicate Quiet(s: LoopState) {
    |s.rows| < 39 && forall r :: r in s.rows ==> QuietRow(r)
  }

  /** Neutral metadata and Gemini signal. */
  ghost predicate Calm(q: Request) {
    && !RiskEngine.IsProduction(q.metadata) && !RiskEngine.IsExternal(q.metadata.source)
    && RiskEngine.GeminiScore(q.gemini) == 0
  }

  lemma {:induction false} InsertPosition(rows: seq<DecisionRow>, row: DecisionRow) returns (k: nat)
    ensures k <= |rows| && InsertRow(rows, row) == rows[..k] + [row] + rows[k..]
  {
    if rows == [] || row.createdAt >= rows[0].createdAt {
      k := 0;
      assert rows[..0] + [row] + rows[0..] == [row] + rows;
    } else {
      var i := InsertPosition(rows[1..], row);
      k := i + 1;
      assert rows == [rows[0]] + rows[1..];
      assert rows[..k] == [rows[0]] + rows[1..][..i] && rows[k..] == rows[1..][i..];
      assert [rows[0]] + (rows[1..][..i] + [row] + rows[1..][i..]) == rows[..k] + [row] + rows[k..];
    }
  }

  lemma {:induction false} CountAtMostOne(items: seq<Activity>, p: Activity -> bool, k: int)
    requires forall i :: 0 <= i < |items| && p(items[i]) ==> i == k
    ensures Count(items, p) <= if 0 <= k < |items| then 1 else 0
  {
    if items != [] {
      CountAtMostOne(items[..|items| - 1], p, k);
    }
  }

  /** On a quiet history a calm request is never anomalous, whatever is decided about it. */
  lemma QuietProfile(rows: seq<DecisionRow>, row: DecisionRow, actorInOrg: bool, m: RiskEngine.Metadata, now: int)
    requires |rows| < 39 && forall r :: r in rows ==> QuietRow(r)
    requires !RiskEngine.IsExternal(row.source) && !RiskEngine.IsExternal(m.source)
    ensures var p := Profile(Loaded(InsertRow(rows, row), actorInOrg), m, now);
            && p.requestCount < 40 && p.blockedCount <= 1 && p.externalCount == 0
            && p.suspiciousSequenceScore == 0 && 0 <= p.driftScore <= 25
  {
    var all := InsertRow(rows, row);
    var k := InsertPosition(rows, row);
    var items := Loaded(all, actorInOrg);
    forall i | 0 <= i < |items| && i != k ensures !IsBlocked(now)(items[i]) && !IsFromOutside(now)(items[i]) {
      assert all[i] == if i < k then rows[i] else rows[i - 1];
      assert QuietRow(all[i]);
    }
    CountAtMostOne(items, IsBlocked(now), k);
    forall i | 0 <= i < |items| ensures !IsFromOutside(now)(items[i]) {
    }
    CountZero(items, IsFromOutside(now));
  }

  lemma QuietScore(p: BehaviorProfile, risk: int)
    requires p.requestCount < 40 && p.blockedCount <= 1 && p.externalCount == 0
    requires p.suspiciousSequenceScore == 0 && 0 <= p.driftScore <= 25
    ensures 0 <= AnomalyScore(p, risk) < 35
  {
  }

  lemma QuietStep(s: LoopState, q: Request)
    requires Quiet(s) && Calm(q)
    ensures 0 <= Step(s, q).anomaly < 35
  {
    var row := NewRow(s, q);
    QuietProfile(s.rows, row, q.actorInOrg, q.metadata, q.now);
    QuietScore(Profile(Loaded(InsertRow(s.rows, row), q.actorInOrg), q.metadata, q.now), row.riskScore);
  }

  // ----- by risk -----

  /**
   * An agent that is not stopped, no policy match, nothing anomalous: 6 points up to risk 25, 4 up
   * to 34, none up to 79, minus 8 up to 84, and minus 18 above, where the request is blocked.
   */
  lemma RiskEffect(s: LoopState, q: Request)
    requires q.matches == [] && (q.status.Operational? || q.status.Warning?) && Step(s, q).anomaly < 35
    ensures var o := Step(s, q);
            o.delta == if o.risk <= 25 then 6 else if o.risk <= 34 then 4 else if o.risk <= 79 then 0
                       else if o.risk <= 84 then -8 else -18
  {
  }

  /** A stopped agent, otherwise the same: minus 8 up to risk 25, minus 10 up to 79, and minus 18 above. */
  lemma StoppedEffect(s: LoopState, q: Request)
    requires q.matches == [] && (q.status.Blocked? || q.status.Quarantined?) && Step(s, q).anomaly < 35
    ensures var o := Step(s, q);
            && o.decision == (if q.status.Blocked? then Block else Quarantine)
            && o.delta == if o.risk <= 25 then -8 else if o.risk <= 79 then -10 else -18
  {
  }

  // ----- by findings -----

  /** A trusted agent's trust after findings alone goes by the worst of them: 6, 0, 0 and minus 18 points. */
  lemma FindingEffect(s: LoopState, q: Request)
    requires 80 <= s.trust <= 100 && Quiet(s) && Calm(q) && q.matches == [] && q.findings != []
    requires q.status.Operational? || q.status.Warning?
    ensures var t := Step(s, q).next.trust;
            && (Critical in q.findings ==> t == s.trust - 18)
            && (Critical !in q.findings && (High in q.findings || Medium in q.findings) ==> t == s.trust)
            && (Critical !in q.findings && High !in q.findings && Medium !in q.findings ==> t == Min(100, s.trust + 6))
  {
    QuietStep(s, q);
    RiskEffect(s, q);
    SignalEffects.FindingsCount(q.findings);
    var first := q.findings[0];
    assert first in q.findings;
  }

  // ----- by matched policies -----

  lemma SingleAction(matches: seq<PolicyMatch>, action: Decision)
    requires matches != [] && forall x :: x in matches ==> x.action == action
    ensures Strongest(matches).action == action
  {
  }

  /**
   * A trusted agent's trust after k matched policies alone: ALLOW earns 4 and 2 points for one and
   * two, then every action costs 2 points a policy up to 12; BLOCK and QUARANTINE cost 10 more.
   */
  lemma MatchEffect(s: LoopState, q: Request, action: Decision)
    requires 80 <= s.trust <= 100 && Quiet(s) && Calm(q) && q.findings == [] && q.matches != []
    requires q.status.Operational? || q.status.Warning?
    requires forall x :: x in q.matches ==> x.action == action
    ensures var k, t := |q.matches|, Step(s, q).next.trust;
            && Step(s, q).decision == action
            && (action == Allow ==>
                  t == if k == 1 then Min(100, s.trust + 4) else if k == 2 then Min(100, s.trust + 2)
                       else if k <= 6 then s.trust - 2 * k else s.trust - 12)
            && (action == Review || action == RateLimit ==>
                  t == if k == 1 then s.trust else if k == 2 then s.trust - 2
                       else if k <= 6 then s.trust - 2 * k else s.trust - 12)
            && (action == Block || action == Quarantine ==>
                  t == if k == 1 then s.trust - 10 else if k == 2 then s.trust - 12
                       else if k <= 6 then s.trust - 10 - 2 * k else s.trust - 22)
  {
    QuietStep(s, q);
    SingleAction(q.matches, action);
    assert RiskEngine.MaxWeight([]) == 0;
    assert Step(s, q).risk == if |q.matches| == 1 then 12 else if |q.matches| == 2 then 24 else 35;
  }

  // ----- by anomaly -----

  /**
   * Two histories of agents with equal trust differ in what the same request does to trust by the
   * anomaly penalty alone: 4 points from anomaly score 35 on, one more per ten points from 50 on.
   */
  lemma AnomalyEffect(calm: LoopState, strange: LoopState, q: Request)
    requires calm.trust == strange.trust && Step(calm, q).anomaly < 35 <= Step(strange, q).anomaly
    ensures var x, y := Step(calm, q), Step(strange, q);
            && x.risk == y.risk && x.decision == y.decision
            && x.delta - y.delta == if y.anomaly < 50 then 4 else if y.anomaly < 60 then 5 else if y.anomaly < 70 then 6
                                    else if y.anomaly < 80 then 7 else if y.anomaly < 90 then 8
                                    else if y.anomaly < 100 then 9 else 10
  {
  }

  // ----- a run of violations -----

  /** A request with six or more matches that all say ALLOW, and nothing else. */
  ghost predicate Violating(q: Request) {
    && Calm(q) && q.findings == [] && (q.status.Operational? || q.status.Warning?)
    && |q.matches| >= 6 && forall x :: x in q.matches ==> x.action == Allow
  }

  lemma ViolatingStep(s: LoopState, q: Request)
    requires 0 <= s.trust <= 100 && Quiet(s) && Violating(q)
    ensures Step(s, q).decision == Allow && Step(s, q).next.trust == Max(0, s.trust - 12)
    ensures forall r :: r in Step(s, q).next.rows ==> QuietRow(r)
  {
    QuietStep(s, q);
    SingleAction(q.matches, Allow);
    assert RiskEngine.MaxWeight([]) == 0;
    assert 35 <= Step(s, q).risk <= 65;
    InsertRowContents(s.rows, NewRow(s, q));
  }

  /** Allowed or not, such requests take 12 points of trust each, down to zero. */
  lemma {:induction false} ViolationsErode(s: LoopState, qs: seq<Request>)
    requires 0 <= s.trust <= 100 && (forall r :: r in s.rows ==> QuietRow(r)) && |s.rows| + |qs| <= 39
    requires forall q :: q in qs ==> Violating(q)
    ensures Final(s, qs).trust == Max(0, s.trust - 12 * |qs|)
    decreases |qs|
  {
    if qs != [] {
      assert qs[0] in qs;
      ViolatingStep(s, qs[0]);
      ViolationsErode(Step(s, qs[0]).next, qs[1..]);
    }
  }
}
