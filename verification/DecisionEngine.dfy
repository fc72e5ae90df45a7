/** backend/app/engine/decision_engine.py */
module DecisionEngine {
  import opened Common
  import opened Models
  import RiskEngine

  datatype PolicyMatch = PolicyMatch(policyId: string, policyName: string, action: Decision, matchedConditions: nat)

  datatype Reason =
    | AlreadyBlocked
    | CurrentlyQuarantined
    | PolicyMatched(policyName: string)
    | CriticalRisk
    | HighRisk
    | ElevatedRisk
    | AcceptableRisk

  datatype DecisionResult = DecisionResult(decision: Decision, reason: Reason)

  function Precedence(d: Decision): (p: int)
    ensures 1 <= p <= 5
  {
    match d
    case Block => 5
    case Quarantine => 4
    case RateLimit => 3
    case Review => 2
    case Allow => 1
  }

  /** Python's `max(..., key=precedence)`: the first match of greatest precedence. */
  function Strongest(matches: seq<PolicyMatch>): (m: PolicyMatch)
    requires matches != []
    ensures m in matches
    ensures forall x :: x in matches ==> Precedence(x.action) <= Precedence(m.action)
  {
    if |matches| == 1 then matches[0]
    else
      var best := Strongest(matches[..|matches| - 1]);
      var last := matches[|matches| - 1];
      if Precedence(last.action) > Precedence(best.action) then last else best
  }

  /** Of several matches with the strongest action the first one is picked, and named in the reason. */
  lemma {:induction false} StrongestComesFirst(matches: seq<PolicyMatch>) returns (k: nat)
    requires matches != []
    ensures k < |matches| && Strongest(matches) == matches[k]
    ensures forall j :: 0 <= j < k ==> Precedence(matches[j].action) < Precedence(matches[k].action)
  {
    if |matches| == 1 {
      k := 0;
    } else {
      var front := matches[..|matches| - 1];
      k := StrongestComesFirst(front);
      if Precedence(matches[|front|].action) > Precedence(front[k].action) {
        forall j | 0 <= j < |front| ensures Precedence(matches[j].action) < Precedence(matches[|front|].action) {
          assert front[j] in front;
        }
        k := |front|;
      }
    }
  }

  function Decide(risk: int, matches: seq<PolicyMatch>, status: AgentStatus): DecisionResult {
    if status.Blocked? then DecisionResult(Block, AlreadyBlocked)
    else if status.Quarantined? then DecisionResult(Quarantine, CurrentlyQuarantined)
    else if matches != [] then
      var s := Strongest(matches);
      DecisionResult(s.action, PolicyMatched(s.policyName))
    else if risk >= 85 then DecisionResult(Block, CriticalRisk)
    else if risk >= 65 then DecisionResult(Review, HighRisk)
    else if risk >= 45 then DecisionResult(RateLimit, ElevatedRisk)
    else DecisionResult(Allow, AcceptableRisk)
  }

  /** Precedence separates the five actions, so "strongest action" is a single value. */
  lemma PrecedenceInjective(a: Decision, b: Decision)
    requires Precedence(a) == Precedence(b)
    ensures a == b
  {
  }

  /** Reordering the matches changes neither the chosen action nor its being the greatest one. */
  lemma DecisionIgnoresMatchOrder(risk: int, a: seq<PolicyMatch>, b: seq<PolicyMatch>, status: AgentStatus)
    requires multiset(a) == multiset(b)
    ensures Decide(risk, a, status).decision == Decide(risk, b, status).decision
  {
    forall x ensures x in a <==> x in b {
      assert x in a <==> x in multiset(a);
      assert x in b <==> x in multiset(b);
    }
    if a == [] {
      assert |multiset(b)| == 0;
    } else {
      assert b != [] by { assert a[0] in b; }
      PrecedenceInjective(Strongest(a).action, Strongest(b).action);
    }
  }

  /**
   * On an agent that is neither blocked nor quarantined, a request with a critical finding is
   * blocked unless some policy matched and none of the matching policies says BLOCK.
   */
  lemma CriticalFindingBlocked(findings: seq<ThreatSeverity>, matches: seq<PolicyMatch>, trust: int,
                               m: RiskEngine.Metadata, gemini: Option<string>, status: AgentStatus)
    requires Critical in findings
    requires status.Operational? || status.Warning?
    ensures Decide(RiskEngine.RiskScore(findings, |matches|, trust, m, gemini), matches, status).decision == Block
       <==> (matches == [] || exists x :: x in matches && x.action == Block)
  {
    assert RiskEngine.Weight(Critical) <= RiskEngine.MaxWeight(findings);
    if matches == [] {
      assert RiskEngine.RiskScore(findings, |matches|, trust, m, gemini) >= 90;
    } else {
      var s := Strongest(matches);
      if x :| x in matches && x.action == Block {
        assert Precedence(s.action) == 5;
      }
    }
  }

  /** Without a status or policy override the decision only gets harsher as risk grows. */
  lemma DecisionMonotoneInRisk(lo: int, hi: int, matches: seq<PolicyMatch>, status: AgentStatus)
    requires lo <= hi
    ensures Severe(Decide(lo, matches, status).decision) ==> Severe(Decide(hi, matches, status).decision)
    ensures Decide(hi, matches, status).decision == Allow ==> Decide(lo, matches, status).decision == Allow
  {
  }

  /** Without overrides a finding puts a floor under the decision, whatever the other signals say. */
  lemma FindingSetsFloor(findings: seq<ThreatSeverity>, f: ThreatSeverity, trust: int, m: RiskEngine.Metadata,
                         gemini: Option<string>, status: AgentStatus)
    requires f in findings
    requires status.Operational? || status.Warning?
    ensures var d := Decide(RiskEngine.RiskScore(findings, 0, trust, m, gemini), [], status).decision;
            && (f == Critical ==> d == Block)
            && (f == High ==> d == Block || d == Review)
            && (f == Medium ==> d != Allow)
  {
    assert RiskEngine.Weight(f) <= RiskEngine.MaxWeight(findings);
  }

  /**
   * Trust, metadata and the Gemini signal add up to 69 at most: without a finding and a policy
   * match an operational agent is never blocked, only sent to review at worst.
   */
  lemma NoFindingNeverBlocked(trust: int, m: RiskEngine.Metadata, gemini: Option<string>, status: AgentStatus)
    requires status.Operational? || status.Warning?
    ensures var risk := RiskEngine.RiskScore([], 0, trust, m, gemini);
            && risk <= 69
            && !Severe(Decide(risk, [], status).decision)
  {
    assert RiskEngine.MaxWeight([]) == 0;
  }
}
