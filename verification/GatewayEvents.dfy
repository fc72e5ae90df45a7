/**
 * Which organization the events of one gateway request carry: the publishing calls of
 * backend/app/engine/orchestration.py (process_runtime_request),
 * backend/app/services/audit_service.py and
 * backend/app/intelligence/intelligence_orchestrator.py (run), in order.
 */
module GatewayEvents {
  import opened Common
  import opened Channels

  datatype Actor = Actor(organizationId: OrgId, superAdmin: bool)

  /** What the request's evaluation found, as far as it decides which events are published. */
  datatype Findings = Findings(threats: nat, violations: nat, correlated: bool)

  predicate MayAct(actor: Actor, agentOrg: OrgId) {
    actor.superAdmin || actor.organizationId == agentOrg
  }

  function Copies(p: Publication, n: nat): (ps: seq<Publication>)
    ensures |ps| == n && forall x :: x in ps ==> x == p
  {
    seq(n, _ => p)
  }

  /** Published before the evaluation; a request whose evaluation raises gets no further. */
  function Announced(actorOrg: OrgId, agentOrg: OrgId): seq<Publication> {
    [PublishAuditEventCreated(actorOrg), PublishGatewayRequestReceived(agentOrg)]
  }

  function Decided(actorOrg: OrgId, agentOrg: OrgId, f: Findings): seq<Publication> {
    [PublishRiskScoreUpdated(agentOrg)]
    + Copies(PublishThreatDetected(agentOrg), f.threats)
    + Copies(PublishPolicyViolation(agentOrg), f.violations)
    + [PublishAuditEventCreated(actorOrg), PublishGovernanceDecisionCreated(agentOrg)]
  }

  function Learned(actorOrg: OrgId, correlated: bool): seq<Publication> {
    [PublishAnomalyDetected(actorOrg), PublishTrustScoreChanged(actorOrg)]
    + (if correlated then [PublishThreatCorrelationDetected(actorOrg)] else [])
    + [PublishGovernanceRecommendationGenerated(actorOrg)]
  }

  /** One request that passed the tenant check; `findings` is `None` when its evaluation raises. */
  datatype GatewayRequest = GatewayRequest(actorOrg: OrgId, agentOrg: OrgId, findings: Option<Findings>)

  /**
   * Everything the request publishes: the audit service and the intelligence engines publish under
   * the actor's organization, all others under the agent's.
   */
  function Published(q: GatewayRequest): seq<Publication> {
    Announced(q.actorOrg, q.agentOrg)
    + if q.findings.None? then []
      else Decided(q.actorOrg, q.agentOrg, q.findings.value) + Learned(q.actorOrg, q.findings.value.correlated)
  }

  datatype Reply = Refused | Raised | Answered

  /** A cross-tenant request is refused before it publishes anything. */
  method ProcessRuntimeRequest(actor: Actor, agentOrg: OrgId, findings: Option<Findings>)
    returns (reply: Reply, out: seq<Publication>)
    ensures reply.Refused? <==> !actor.superAdmin && actor.organizationId != agentOrg
    ensures reply.Answered? ==> findings.Some?
    ensures reply.Raised? ==> findings.None?
    ensures out == if reply.Refused? then [] else Published(GatewayRequest(actor.organizationId, agentOrg, findings))
  {
    if !actor.superAdmin && actor.organizationId != agentOrg {
      return Refused, [];
    }
    var o := actor.organizationId;
    out := Announced(o, agentOrg);
    if findings.None? {
      return Raised, out;
    }
    var f := findings.value;
    var decided := [PublishRiskScoreUpdated(agentOrg)];
    for i := 0 to f.threats
      invariant decided == [PublishRiskScoreUpdated(agentOrg)] + Copies(PublishThreatDetected(agentOrg), i)
    {
      decided := decided + [PublishThreatDetected(agentOrg)];
    }
    ghost var detected := decided;
    for i := 0 to f.violations
      invariant decided == detected + Copies(PublishPolicyViolation(agentOrg), i)
    {
      decided := decided + [PublishPolicyViolation(agentOrg)];
    }
    decided := decided + [PublishAuditEventCreated(o), PublishGovernanceDecisionCreated(agentOrg)];
    var learned := [PublishAnomalyDetected(o), PublishTrustScoreChanged(o)];
    assert learned + [] == learned;
    if f.correlated {
      learned := learned + [PublishThreatCorrelationDetected(o)];
    }
    learned := learned + [PublishGovernanceRecommendationGenerated(o)];
    return Answered, out + (decided + learned);
  }

  predicate UnderActor(t: EventType) {
    t.AuditEventCreated? || IsIntelligenceEvent(t)
  }

  predicate CarriesItsOrganization(p: Publication, id: nat, actorOrg: OrgId, agentOrg: OrgId) {
    var e := EventOf(p, id);
    e.organizationId == Some(if UnderActor(e.eventType) then actorOrg else agentOrg)
  }

  lemma DecidedOrganization(actorOrg: OrgId, agentOrg: OrgId, f: Findings, p: Publication, id: nat)
    requires p in Decided(actorOrg, agentOrg, f)
    ensures CarriesItsOrganization(p, id, actorOrg, agentOrg)
  {
    assert p in Copies(PublishThreatDetected(agentOrg), f.threats)
        || p in Copies(PublishPolicyViolation(agentOrg), f.violations)
        || p == PublishRiskScoreUpdated(agentOrg) || p == PublishAuditEventCreated(actorOrg)
        || p == PublishGovernanceDecisionCreated(agentOrg);
  }

  lemma LearnedOrganization(actorOrg: OrgId, agentOrg: OrgId, correlated: bool, p: Publication, id: nat)
    requires p in Learned(actorOrg, correlated)
    ensures CarriesItsOrganization(p, id, actorOrg, agentOrg)
  {
  }

  /** Each event of the request carries the organization its type selects. */
  lemma EventOrganization(q: GatewayRequest, p: Publication, id: nat)
    requires p in Published(q)
    ensures var e := EventOf(p, id);
            e.organizationId == Some(if UnderActor(e.eventType) then q.actorOrg else q.agentOrg)
  {
    if p !in Announced(q.actorOrg, q.agentOrg) {
      var f := q.findings.value;
      if p in Decided(q.actorOrg, q.agentOrg, f) {
        DecidedOrganization(q.actorOrg, q.agentOrg, f, p, id);
      } else {
        LearnedOrganization(q.actorOrg, q.agentOrg, f.correlated, p, id);
      }
    }
  }

  lemma CopiesCount(p: Publication, n: nat)
    ensures multiset(Copies(p, n)) == multiset{}[p := n]
    decreases n
  {
    if n > 0 {
      CopiesCount(p, n - 1);
      assert Copies(p, n) == Copies(p, n - 1) + [p];
    } else {
      assert Copies(p, n) == [];
    }
  }

  /**
   * An answered request announces itself once, one risk score and one decision, each threat and
   * each violation, two audit events, an anomaly, a trust change, a recommendation, and a
   * correlation exactly when there is one.
   */
  lemma AnsweredPublishes(q: GatewayRequest)
    requires q.findings.Some?
    ensures var f, a, g := q.findings.value, q.actorOrg, q.agentOrg;
            multiset(Published(q))
            == multiset{PublishGatewayRequestReceived(g), PublishRiskScoreUpdated(g),
                        PublishGovernanceDecisionCreated(g),
                        PublishAuditEventCreated(a), PublishAuditEventCreated(a), PublishAnomalyDetected(a),
                        PublishTrustScoreChanged(a), PublishGovernanceRecommendationGenerated(a)}
               + multiset{}[PublishThreatDetected(g) := f.threats]
               + multiset{}[PublishPolicyViolation(g) := f.violations]
               + multiset{}[PublishThreatCorrelationDetected(a) := if f.correlated then 1 else 0]
  {
    var f := q.findings.value;
    CopiesCount(PublishThreatDetected(q.agentOrg), f.threats);
    CopiesCount(PublishPolicyViolation(q.agentOrg), f.violations);
  }

  /** All events of a request carry the agent's organization exactly when the actor shares it. */
  lemma AllUnderAgentIffShared(q: GatewayRequest)
    ensures (forall p :: p in Published(q) ==> EventOf(p, 0).organizationId == Some(q.agentOrg))
            <==> q.actorOrg == q.agentOrg
  {
    var ps := Published(q);
    assert ps[0] == PublishAuditEventCreated(q.actorOrg);
    assert ps[0] in ps;
    forall p | p in ps ensures q.actorOrg == q.agentOrg ==> EventOf(p, 0).organizationId == Some(q.agentOrg) {
      EventOrganization(q, p, 0);
    }
    assert EventOf(ps[0], 0).organizationId == Some(q.actorOrg);
  }

  /** An ordinary actor's request that is not refused publishes under the agent's organization only. */
  lemma OrdinaryActorsStayInOrg(actor: Actor, agentOrg: OrgId, findings: Option<Findings>)
    requires MayAct(actor, agentOrg) && !actor.superAdmin
    ensures forall p :: p in Published(GatewayRequest(actor.organizationId, agentOrg, findings)) ==>
              EventOf(p, 0).organizationId == Some(agentOrg)
  {
    AllUnderAgentIffShared(GatewayRequest(actor.organizationId, agentOrg, findings));
  }

  /**
   * When a super admin of another organization acts, the agent's own organization hears of none of
   * the audit and intelligence events on its channels; they go to the admin's organization.
   */
  lemma ForeignActorRedirectsEvents(q: GatewayRequest, p: Publication, id: nat, c: string)
    requires q.actorOrg != q.agentOrg && p in Published(q) && UnderActor(EventOf(p, id).eventType)
    ensures IsOrgChannel(c, q.agentOrg) ==> c !in ChannelsOf(EventOf(p, id))
    ensures PlatformChannel(q.actorOrg) in ChannelsOf(EventOf(p, id))
  {
    EventOrganization(q, p, id);
    PublishersRouteSoundly(p, id);
  }
}
