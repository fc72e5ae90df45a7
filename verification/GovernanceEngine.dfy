/** backend/app/engine/governance_engine.py */
module GovernanceEngine {
  import opened Common
  import opened Models
  import opened DecisionEngine
  import opened PolicyEngine

  datatype Execution = Execution(matches: seq<RuleMatch>, risk: int, decision: Decision)

  datatype ExecutionError = Evaluation(error: EvalError) | UnknownAction

  predicate AllKnown(matches: seq<RuleMatch>) {
    forall i :: 0 <= i < |matches| ==> matches[i].action.Known?
  }

  function ToTyped(m: RuleMatch): PolicyMatch
    requires m.action.Known?
  {
    PolicyMatch(m.policyId, m.policyName, m.action.decision, m.matchedConditions)
  }

  function Typed(matches: seq<RuleMatch>): (r: seq<PolicyMatch>)
    requires AllKnown(matches)
    ensures |r| == |matches|
  {
    seq(|matches|, i requires 0 <= i < |matches| => ToTyped(matches[i]))
  }

  /**
   * Evaluate the policies, assess the risk, decide; threat findings are the detector's output. The
   * decision looks the matched actions up unless the agent's status settles it first.
   */
  function Execute(lib: Library, findings: seq<ThreatSeverity>, context: Json, policies: seq<Policy>,
                   status: AgentStatus, trust: int, m: RiskEngine.Metadata, gemini: Option<string>)
    : Result<Execution, ExecutionError>
  {
    var matches := Evaluate(lib, context, policies);
    if matches.Err? then Err(Evaluation(matches.error))
    else
      var risk := RiskEngine.RiskScore(findings, |matches.value|, trust, m, gemini);
      if AllKnown(matches.value) then
        Ok(Execution(matches.value, risk, Decide(risk, Typed(matches.value), status).decision))
      else if status.Blocked? || status.Quarantined? then
        Ok(Execution(matches.value, risk, Decide(risk, [], status).decision))
      else Err(UnknownAction)
  }

  /** With an unknown action among the matches there is an outcome exactly for a stopped agent. */
  lemma UnknownActionFails(lib: Library, findings: seq<ThreatSeverity>, context: Json, policies: seq<Policy>,
                           status: AgentStatus, trust: int, m: RiskEngine.Metadata, gemini: Option<string>)
    requires Evaluate(lib, context, policies).Ok? && !AllKnown(Evaluate(lib, context, policies).value)
    ensures var x := Execute(lib, findings, context, policies, status, trust, m, gemini);
            && (x.Ok? <==> status == Blocked || status == Quarantined)
            && (x.Ok? ==> x.value.decision == if status == Blocked then Block else Quarantine)
  {
  }

  function FromTyped(m: PolicyMatch): RuleMatch {
    RuleMatch(m.policyId, m.policyName, Known(m.action), m.matchedConditions)
  }

  lemma {:induction false} TypedCounts(matches: seq<RuleMatch>, m: PolicyMatch)
    requires AllKnown(matches)
    ensures multiset(Typed(matches))[m] == multiset(matches)[FromTyped(m)]
  {
    if matches != [] {
      var rest := matches[1..];
      TypedCounts(rest, m);
      assert matches == [matches[0]] + rest;
      assert Typed(matches) == [ToTyped(matches[0])] + Typed(rest);
      assert FromTyped(ToTyped(matches[0])) == matches[0];
    }
  }

  lemma PermutedMatchesAreKnown(a: seq<RuleMatch>, b: seq<RuleMatch>)
    requires multiset(a) == multiset(b) && AllKnown(a)
    ensures AllKnown(b) && multiset(Typed(a)) == multiset(Typed(b))
  {
    forall i | 0 <= i < |b| ensures b[i].action.Known? {
      assert b[i] in multiset(b);
      assert b[i] in multiset(a);
    }
    forall m: PolicyMatch ensures multiset(Typed(a))[m] == multiset(Typed(b))[m] {
      TypedCounts(a, m);
      TypedCounts(b, m);
    }
  }

  /** Rows as stored name a known action each. */
  lemma StoredRowsAreKnown(lib: Library, context: Json, policies: seq<Policy>)
    requires forall i :: 0 <= i < |policies| ==> policies[i].Stored?
    requires Evaluate(lib, context, policies).Ok?
    ensures AllKnown(Evaluate(lib, context, policies).value)
  {
    CollectedAreKnown(Outcomes(lib, context, policies));
  }

  lemma {:induction false} CollectedAreKnown(outcomes: seq<Result<Option<RuleMatch>, EvalError>>)
    requires Collect(outcomes).Ok?
    requires forall i :: 0 <= i < |outcomes| && outcomes[i].Ok? && outcomes[i].value.Some? ==>
               outcomes[i].value.value.action.Known?
    ensures AllKnown(Collect(outcomes).value)
  {
    if outcomes != [] {
      CollectedAreKnown(outcomes[1..]);
    }
  }

  /**
   * Neither caching the policies nor the order they come in changes the outcome: the same risk and
   * the same decision, from the same matches up to order, or no outcome in either case.
   */
  lemma OutcomeIgnoresCachingAndOrder(lib: Library, findings: seq<ThreatSeverity>, context: Json, stored: seq<Policy>,
                                      reordered: seq<Policy>, status: AgentStatus, trust: int, m: RiskEngine.Metadata,
                                      gemini: Option<string>)
    requires multiset(stored) == multiset(reordered)
    ensures var x := Execute(lib, findings, context, stored, status, trust, m, gemini);
            var y := Execute(lib, findings, context, ProjectAll(reordered), status, trust, m, gemini);
            && (x.Ok? <==> y.Ok?)
            && (x.Ok? ==> x.value.risk == y.value.risk && x.value.decision == y.value.decision
                          && multiset(x.value.matches) == multiset(y.value.matches))
  {
    CachingKeepsMatches(lib, context, reordered);
    ReorderingPermutesMatches(lib, context, stored, reordered);
    var a, b := Evaluate(lib, context, stored), Evaluate(lib, context, reordered);
    if a.Ok? {
      assert |multiset(a.value)| == |multiset(b.value)|;
      if AllKnown(a.value) {
        PermutedMatchesAreKnown(a.value, b.value);
        DecisionIgnoresMatchOrder(RiskEngine.RiskScore(findings, |a.value|, trust, m, gemini), Typed(a.value),
                                  Typed(b.value), status);
      } else if AllKnown(b.value) {
        PermutedMatchesAreKnown(b.value, a.value);
      }
    }
  }
}
