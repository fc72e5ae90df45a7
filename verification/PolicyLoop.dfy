/** The trust loop does not depend on how the matched policies were cached or ordered. */
module PolicyLoop {
  import opened Common
  import opened DecisionEngine
  import opened IntelligenceOrchestrator
  import PolicyEngine
  import GovernanceEngine

  ghost predicate SameUpToMatchOrder(a: Request, b: Request) {
    b == a.(matches := b.matches) && multiset(a.matches) == multiset(b.matches)
  }

  lemma StepIgnoresMatchOrder(s: LoopState, a: Request, b: Request)
    requires SameUpToMatchOrder(a, b)
    ensures Step(s, a) == Step(s, b)
  {
    assert |multiset(a.matches)| == |multiset(b.matches)|;
    DecisionIgnoresMatchOrder(RiskEngine.RiskScore(a.findings, |a.matches|, s.trust, a.metadata, a.gemini),
                              a.matches, b.matches, a.status);
  }

  /** Runs whose requests differ only in the order of the matched policies have the same trace. */
  lemma {:induction false} TraceIgnoresMatchOrder(s: LoopState, a: seq<Request>, b: seq<Request>)
    requires |a| == |b| && forall i :: 0 <= i < |a| ==> SameUpToMatchOrder(a[i], b[i])
    ensures Trace(s, a) == Trace(s, b)
    decreases |a|
  {
    if a != [] {
      StepIgnoresMatchOrder(s, a[0], b[0]);
      TraceIgnoresMatchOrder(Step(s, a[0]).next, a[1..], b[1..]);
    }
  }

  /**
   * The loop's step is the governance engine's execution, and it comes out the same whether the
   * policies are evaluated as stored or as cached dictionaries in any order.
   */
  lemma StepIgnoresPolicyCaching(s: LoopState, q: Request, lib: PolicyEngine.Library, context: PolicyEngine.Json,
                                 stored: seq<PolicyEngine.Policy>, reordered: seq<PolicyEngine.Policy>)
    requires multiset(stored) == multiset(reordered)
    requires var matches := PolicyEngine.Evaluate(lib, context, stored);
             && matches.Ok? && GovernanceEngine.AllKnown(matches.value)
             && q.matches == GovernanceEngine.Typed(matches.value)
    ensures GovernanceEngine.Execute(lib, q.findings, context, stored, q.status, s.trust, q.metadata, q.gemini)
         == Ok(GovernanceEngine.Execution(PolicyEngine.Evaluate(lib, context, stored).value, Step(s, q).risk,
                                          Step(s, q).decision))
    ensures var cached := PolicyEngine.Evaluate(lib, context, PolicyEngine.ProjectAll(reordered));
            && cached.Ok? && GovernanceEngine.AllKnown(cached.value)
            && Step(s, q.(matches := GovernanceEngine.Typed(cached.value))) == Step(s, q)
  {
    PolicyEngine.CachingKeepsMatches(lib, context, reordered);
    PolicyEngine.ReorderingPermutesMatches(lib, context, stored, reordered);
    var cached := PolicyEngine.Evaluate(lib, context, PolicyEngine.ProjectAll(reordered));
    GovernanceEngine.PermutedMatchesAreKnown(PolicyEngine.Evaluate(lib, context, stored).value, cached.value);
    StepIgnoresMatchOrder(s, q, q.(matches := GovernanceEngine.Typed(cached.value)));
  }
}
