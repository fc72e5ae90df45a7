/**
 * The closed loop of backend/app/engine/orchestration.py (process_runtime_request),
 * backend/app/engine/governance_engine.py (execute) and
 * backend/app/intelligence/intelligence_orchestrator.py (run) for one agent.
 */
module IntelligenceOrchestrator {
  import opened Common
  import opened Models
  import opened DecisionEngine
  import opened BehaviorEngine
  import opened AnomalyDetector
  import TrustEngine

  const WINDOW := 60

  /** A stored governance decision joined with its threat event. */
  datatype DecisionRow = DecisionRow(decision: Decision, riskScore: int, source: Option<string>, createdAt: int)

  /**
   * Everything a gateway request contributes that does not depend on the agent's trust or history.
   * `actorInOrg` says that the acting user belongs to the agent's organization; only a super admin
   * may act on an agent of another one.
   */
  datatype Request = Request(
    actorInOrg: bool,
    findings: seq<ThreatSeverity>,
    matches: seq<PolicyMatch>,
    metadata: RiskEngine.Metadata,
    gemini: Option<string>,
    status: AgentStatus,
    createdAt: int,
    now: int)

  datatype LoopState = LoopState(trust: int, rows: seq<DecisionRow>)

  datatype Outcome = Outcome(next: LoopState, risk: int, decision: Decision, anomaly: int, delta: int)

  /** Keeps the rows newest first, which is the order the history query returns them in. */
  function InsertRow(rows: seq<DecisionRow>, row: DecisionRow): (r: seq<DecisionRow>)
    ensures |r| == |rows| + 1
  {
    if rows == [] || row.createdAt >= rows[0].createdAt then [row] + rows
    else [rows[0]] + InsertRow(rows[1..], row)
  }

  function ToActivity(row: DecisionRow): Activity {
    Activity(row.decision, row.riskScore, row.source, Some(row.createdAt))
  }

  function Window(rows: seq<DecisionRow>): (items: seq<Activity>)
    ensures |items| == Min(WINDOW, |rows|)
  {
    seq(Min(WINDOW, |rows|), i requires 0 <= i < |rows| => ToActivity(rows[i]))
  }

  /** The history is looked up under the actor's organization and stored under the agent's. */
  function Loaded(rows: seq<DecisionRow>, actorInOrg: bool): seq<Activity> {
    if actorInOrg then Window(rows) else []
  }

  function Step(s: LoopState, q: Request): Outcome {
    var risk := RiskEngine.RiskScore(q.findings, |q.matches|, s.trust, q.metadata, q.gemini);
    var decision := Decide(risk, q.matches, q.status).decision;
    var rows := InsertRow(s.rows, DecisionRow(decision, risk, q.metadata.source, q.createdAt));
    var anomaly := AnomalyScore(Profile(Loaded(rows, q.actorInOrg), q.metadata, q.now), risk);
    var delta := TrustEngine.Delta(anomaly >= 35, anomaly, decision, risk, |q.matches|);
    Outcome(LoopState(Clamp(0, 100, s.trust + delta), rows), risk, decision, anomaly, delta)
  }

  lemma StepByParts(s: LoopState, q: Request, decision: Decision, rows: seq<DecisionRow>, anomaly: AnomalyResult,
                    delta: int)
    requires var risk := RiskEngine.RiskScore(q.findings, |q.matches|, s.trust, q.metadata, q.gemini);
             && decision == Decide(risk, q.matches, q.status).decision
             && rows == InsertRow(s.rows, DecisionRow(decision, risk, q.metadata.source, q.createdAt))
             && anomaly.score == AnomalyScore(Profile(Loaded(rows, q.actorInOrg), q.metadata, q.now), risk)
             && (anomaly.isAnomalous <==> KindOf(anomaly.score) != NoAnomaly)
             && delta == TrustEngine.Delta(anomaly.isAnomalous, anomaly.score, decision, risk, |q.matches|)
    ensures var risk := RiskEngine.RiskScore(q.findings, |q.matches|, s.trust, q.metadata, q.gemini);
            Step(s, q) == Outcome(LoopState(Clamp(0, 100, s.trust + delta), rows), risk, decision, anomaly.score, delta)
  {
    assert anomaly.isAnomalous <==> anomaly.score >= 35;
  }

  /** The outcomes of a run, oldest first. */
  function Trace(s: LoopState, qs: seq<Request>): (t: seq<Outcome>)
    ensures |t| == |qs|
    decreases |qs|
  {
    if qs == [] then [] else
      var o := Step(s, qs[0]);
      [o] + Trace(o.next, qs[1..])
  }

  function Final(s: LoopState, qs: seq<Request>): LoopState
    decreases |qs|
  {
    if qs == [] then s else Final(Step(s, qs[0]).next, qs[1..])
  }

  /** The agent record together with its stored decisions. */
  class GovernedAgent {
    var trustScore: int
    var rows: seq<DecisionRow>

    constructor (trust: int)
      ensures State() == LoopState(trust, [])
    {
      trustScore, rows := trust, [];
    }

    function State(): LoopState
      reads this
    {
      LoopState(trustScore, rows)
    }

    method LoadRecentActivity(actorInOrg: bool) returns (items: seq<Activity>)
      ensures items == Loaded(rows, actorInOrg)
      ensures |items| == if !actorInOrg then 0 else if |rows| > 60 then 60 else |rows|
    {
      items := [];
      if !actorInOrg {
        return;
      }
      var i := 0;
      while i < |rows| && i < WINDOW
        invariant 0 <= i <= Min(WINDOW, |rows|)
        invariant items == Window(rows)[..i]
      {
        items := items + [ToActivity(rows[i])];
        i := i + 1;
      }
    }

    /** One gateway request: assess, decide, persist the decision, then adapt the trust score. */
    method Process(q: Request) returns (o: Outcome)
      modifies this
      ensures o == Step(old(State()), q)
      ensures State() == o.next
    {
      var assessment := RiskEngine.Assess(q.findings, |q.matches|, trustScore, q.metadata, q.gemini);
      var risk := assessment.riskScore;
      var decision := Decide(risk, q.matches, q.status).decision;
      rows := InsertRow(rows, DecisionRow(decision, risk, q.metadata.source, q.createdAt));
      var activity := LoadRecentActivity(q.actorInOrg);
      var behavior := Analyze(activity, q.metadata, q.now);
      var anomaly := Detect(behavior, risk);
      var update := TrustEngine.UpdateTrust(trustScore, anomaly, decision, risk, |q.matches|);
      StepByParts(old(State()), q, decision, rows, anomaly, update.delta);
      trustScore := update.trustScore;
      o := Outcome(LoopState(trustScore, rows), risk, decision, anomaly.score, update.delta);
    }
  }

  ghost predicate NewestFirst(rows: seq<DecisionRow>) {
    forall i, j :: 0 <= i <= j < |rows| ==> rows[i].createdAt >= rows[j].createdAt
  }

  lemma {:induction false} InsertRowContents(rows: seq<DecisionRow>, row: DecisionRow)
    ensures multiset(InsertRow(rows, row)) == multiset(rows) + multiset{row}
    ensures forall r :: r in InsertRow(rows, row) <==> r == row || r in rows
  {
    if rows != [] && row.createdAt < rows[0].createdAt {
      InsertRowContents(rows[1..], row);
      assert rows == [rows[0]] + rows[1..];
    }
  }

  lemma {:induction false} InsertRowKeepsOrder(rows: seq<DecisionRow>, row: DecisionRow)
    requires NewestFirst(rows)
    ensures NewestFirst(InsertRow(rows, row))
  {
    if rows != [] && row.createdAt < rows[0].createdAt {
      var tail := InsertRow(rows[1..], row);
      InsertRowKeepsOrder(rows[1..], row);
      InsertRowContents(rows[1..], row);
      forall j | 0 <= j < |tail| ensures rows[0].createdAt >= tail[j].createdAt {
        assert tail[j] == row || tail[j] in rows[1..];
      }
    }
  }

  function RowOf(o: Outcome, q: Request): DecisionRow {
    DecisionRow(o.decision, o.risk, q.metadata.source, q.createdAt)
  }

  function NewRow(s: LoopState, q: Request): DecisionRow {
    RowOf(Step(s, q), q)
  }

  lemma StepInsertsRow(s: LoopState, q: Request)
    ensures Step(s, q).next.rows == InsertRow(s.rows, NewRow(s, q))
  {
  }

  /** The rows that record the outcomes of a run, in the order of the requests. */
  function RowsOf(t: seq<Outcome>, qs: seq<Request>): (rows: seq<DecisionRow>)
    requires |t| == |qs|
    ensures |rows| == |qs|
  {
    if t == [] then [] else [RowOf(t[0], qs[0])] + RowsOf(t[1..], qs[1..])
  }

  /**
   * Whatever the order the requests' timestamps come in, after a run the stored rows are the old
   * ones and one per request, recording that request's decision, risk, source and time, sorted
   * newest first.
   */
  lemma {:induction false} HistoryIsComplete(s: LoopState, qs: seq<Request>)
    requires NewestFirst(s.rows)
    ensures NewestFirst(Final(s, qs).rows)
    ensures multiset(Final(s, qs).rows) == multiset(s.rows) + multiset(RowsOf(Trace(s, qs), qs))
    decreases |qs|
  {
    if qs != [] {
      var next := Step(s, qs[0]).next;
      StepInsertsRow(s, qs[0]);
      InsertRowContents(s.rows, NewRow(s, qs[0]));
      InsertRowKeepsOrder(s.rows, NewRow(s, qs[0]));
      HistoryIsComplete(next, qs[1..]);
      var rest := RowsOf(Trace(next, qs[1..]), qs[1..]);
      assert Trace(s, qs)[1..] == Trace(next, qs[1..]);
      assert RowsOf(Trace(s, qs), qs) == [NewRow(s, qs[0])] + rest;
    }
  }

  /** What the window leaves out is no newer than anything it holds. */
  lemma WindowHoldsTheNewest(s: LoopState, qs: seq<Request>, kept: nat, left: nat)
    requires NewestFirst(s.rows)
    requires kept < 60 <= left < |Final(s, qs).rows|
    ensures var rows := Final(s, qs).rows;
            && Window(rows)[kept] == ToActivity(rows[kept])
            && Window(rows)[kept].timestamp.value >= rows[left].createdAt
  {
    HistoryIsComplete(s, qs);
  }

  /** A request by a super admin of another organization is judged without any history. */
  lemma ForeignActorSeesNoHistory(a: LoopState, b: LoopState, q: Request)
    requires !q.actorInOrg && a.trust == b.trust
    ensures var x, y := Step(a, q), Step(b, q);
            && x.risk == y.risk && x.decision == y.decision && x.anomaly == y.anomaly && x.delta == y.delta
            && x.next.trust == y.next.trust
  {
  }
}
