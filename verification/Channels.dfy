/** backend/app/ws/channels.py and backend/app/events/publishers.py */
module Channels {
  import opened Common

  /** An organization id in its canonical text form. */
  type OrgId = string

  datatype EventType =
    | GovernanceDecisionCreated
    | ThreatDetected
    | PolicyViolation
    | AgentStatusChanged
    | RiskScoreUpdated
    | AuditEventCreated
    | GatewayRequestReceived
    | SystemHealthEvent
    | AnomalyDetected
    | TrustScoreChanged
    | ThreatCorrelationDetected
    | GovernanceRecommendationGenerated

  /** `eventId` stands for the identity and the payload of the event. */
  datatype PlatformEvent = PlatformEvent(eventId: nat, eventType: EventType, organizationId: Option<OrgId>,
                                         channel: string)

  const PLATFORM_GLOBAL := "platform.global"
  const THREATS_GLOBAL := "threats.global"
  const GOVERNANCE_GLOBAL := "governance.global"
  const SYSTEM_HEALTH_GLOBAL := "system.health.global"
  const INTELLIGENCE_GLOBAL := "intelligence.global"

  function PlatformChannel(o: OrgId): string { "platform.org." + o }

  function ThreatChannel(o: OrgId): string { "threats.org." + o }

  function GovernanceChannel(o: OrgId): string { "governance.org." + o }

  function IntelligenceChannel(o: OrgId): string { "intelligence.org." + o }

  predicate IsOrgChannel(c: string, o: OrgId) {
    c == PlatformChannel(o) || c == ThreatChannel(o) || c == GovernanceChannel(o) || c == IntelligenceChannel(o)
  }

  function ForOrg(e: PlatformEvent, name: OrgId -> string): set<string> {
    if e.organizationId.Some? then {name(e.organizationId.value)} else {}
  }

  predicate IsThreatEvent(t: EventType) { t.ThreatDetected? || t.PolicyViolation? }

  predicate IsGovernanceEvent(t: EventType) {
    t.GovernanceDecisionCreated? || t.RiskScoreUpdated? || t.GatewayRequestReceived? || t.PolicyViolation?
  }

  predicate IsIntelligenceEvent(t: EventType) {
    t.AnomalyDetected? || t.TrustScoreChanged? || t.ThreatCorrelationDetected? || t.GovernanceRecommendationGenerated?
  }

  function ChannelsOf(e: PlatformEvent): (cs: set<string>)
    ensures e.channel in cs && PLATFORM_GLOBAL in cs
  {
    {e.channel, PLATFORM_GLOBAL} + ForOrg(e, PlatformChannel)
    + (if IsThreatEvent(e.eventType) then {THREATS_GLOBAL} + ForOrg(e, ThreatChannel) else {})
    + (if IsGovernanceEvent(e.eventType) then {GOVERNANCE_GLOBAL} + ForOrg(e, GovernanceChannel) else {})
    + (if e.eventType.SystemHealthEvent? then {SYSTEM_HEALTH_GLOBAL} else {})
    + (if IsIntelligenceEvent(e.eventType) then {INTELLIGENCE_GLOBAL} + ForOrg(e, IntelligenceChannel) else {})
  }

  method ChannelsForEvent(e: PlatformEvent) returns (channels: set<string>)
    ensures channels == ChannelsOf(e)
  {
    channels := {e.channel, PLATFORM_GLOBAL};
    if e.organizationId.Some? {
      channels := channels + {PlatformChannel(e.organizationId.value)};
    }
    if IsThreatEvent(e.eventType) {
      channels := channels + {THREATS_GLOBAL};
      if e.organizationId.Some? {
        channels := channels + {ThreatChannel(e.organizationId.value)};
      }
    }
    if IsGovernanceEvent(e.eventType) {
      channels := channels + {GOVERNANCE_GLOBAL};
      if e.organizationId.Some? {
        channels := channels + {GovernanceChannel(e.organizationId.value)};
      }
    }
    if e.eventType.SystemHealthEvent? {
      channels := channels + {SYSTEM_HEALTH_GLOBAL};
    }
    if IsIntelligenceEvent(e.eventType) {
      channels := channels + {INTELLIGENCE_GLOBAL};
      if e.organizationId.Some? {
        channels := channels + {IntelligenceChannel(e.organizationId.value)};
      }
    }
  }

  // ----- naming -----

  lemma SameSuffix(prefix: string, a: string, b: string)
    requires prefix + a == prefix + b
    ensures a == b
  {
    assert (prefix + a)[|prefix|..] == a && (prefix + b)[|prefix|..] == b;
  }

  /** A channel name belongs to at most one organization. */
  lemma OrgChannelsAreDisjoint(c: string, a: OrgId, b: OrgId)
    requires IsOrgChannel(c, a) && IsOrgChannel(c, b)
    ensures a == b
  {
    if c[0] == 'p' {
      SameSuffix("platform.org.", a, b);
    } else if c[0] == 't' {
      SameSuffix("threats.org.", a, b);
    } else if c[0] == 'g' {
      SameSuffix("governance.org.", a, b);
    } else {
      SameSuffix("intelligence.org.", a, b);
    }
  }

  predicate IsGlobal(c: string) {
    c == PLATFORM_GLOBAL || c == THREATS_GLOBAL || c == GOVERNANCE_GLOBAL || c == SYSTEM_HEALTH_GLOBAL
    || c == INTELLIGENCE_GLOBAL
  }

  /** No global channel has the name of an organization's channel. */
  lemma GlobalChannelsBelongToNobody(c: string, o: OrgId)
    requires IsGlobal(c)
    ensures !IsOrgChannel(c, o)
  {
    assert PlatformChannel(o)[0] == 'p' && ThreatChannel(o)[0] == 't';
    assert GovernanceChannel(o)[0] == 'g' && IntelligenceChannel(o)[0] == 'i';
    if c == PLATFORM_GLOBAL {
      assert c[0] == 'p';
      assert c[9] == 'g' && PlatformChannel(o)[9] == 'o';
    } else if c == THREATS_GLOBAL {
      assert c[0] == 't';
      assert c[8] == 'g' && ThreatChannel(o)[8] == 'o';
    } else if c == GOVERNANCE_GLOBAL {
      assert c[0] == 'g';
      assert c[11] == 'g' && GovernanceChannel(o)[11] == 'o';
    } else if c == INTELLIGENCE_GLOBAL {
      assert c[0] == 'i';
      assert c[13] == 'g' && IntelligenceChannel(o)[13] == 'o';
    } else {
      assert c[0] == 's';
    }
  }

  /** Besides its own channel an event goes to global channels and to its own organization. */
  lemma OtherChannels(e: PlatformEvent, c: string)
    requires c in ChannelsOf(e) && c != e.channel
    ensures IsGlobal(c) || (e.organizationId.Some? && IsOrgChannel(c, e.organizationId.value))
  {
  }

  // ----- which events a channel gets -----

  /** An organization's platform channel gets all of its events. */
  lemma PlatformChannelGets(e: PlatformEvent, o: OrgId)
    ensures PlatformChannel(o) in ChannelsOf(e) <==> e.channel == PlatformChannel(o) || e.organizationId == Some(o)
  {
    OwnNames(o);
    if PlatformChannel(o) in ChannelsOf(e) && PlatformChannel(o) != e.channel {
      OtherChannelBelongs(e, PlatformChannel(o), o);
    }
  }

  /** Its threat channel gets threats and policy violations. */
  lemma ThreatChannelGets(e: PlatformEvent, o: OrgId)
    ensures ThreatChannel(o) in ChannelsOf(e) <==>
            || e.channel == ThreatChannel(o)
            || (e.organizationId == Some(o) && (e.eventType.ThreatDetected? || e.eventType.PolicyViolation?))
  {
    OwnNames(o);
    if ThreatChannel(o) in ChannelsOf(e) && ThreatChannel(o) != e.channel {
      OtherChannelBelongs(e, ThreatChannel(o), o);
    }
  }

  /** Its governance channel gets requests, risk scores, decisions and policy violations. */
  lemma GovernanceChannelGets(e: PlatformEvent, o: OrgId)
    ensures GovernanceChannel(o) in ChannelsOf(e) <==>
            || e.channel == GovernanceChannel(o)
            || (e.organizationId == Some(o)
                && (e.eventType.GovernanceDecisionCreated? || e.eventType.RiskScoreUpdated?
                    || e.eventType.GatewayRequestReceived? || e.eventType.PolicyViolation?))
  {
    OwnNames(o);
    if GovernanceChannel(o) in ChannelsOf(e) && GovernanceChannel(o) != e.channel {
      OtherChannelBelongs(e, GovernanceChannel(o), o);
    }
  }

  /** Its intelligence channel gets anomalies, trust changes, correlations and recommendations. */
  lemma IntelligenceChannelGets(e: PlatformEvent, o: OrgId)
    ensures IntelligenceChannel(o) in ChannelsOf(e) <==>
            || e.channel == IntelligenceChannel(o)
            || (e.organizationId == Some(o)
                && (e.eventType.AnomalyDetected? || e.eventType.TrustScoreChanged?
                    || e.eventType.ThreatCorrelationDetected? || e.eventType.GovernanceRecommendationGenerated?))
  {
    OwnNames(o);
    if IntelligenceChannel(o) in ChannelsOf(e) && IntelligenceChannel(o) != e.channel {
      OtherChannelBelongs(e, IntelligenceChannel(o), o);
    }
  }

  /** The four channels of an organization are different from each other and from the global ones. */
  lemma OwnNames(o: OrgId)
    ensures PlatformChannel(o)[0] == 'p' && ThreatChannel(o)[0] == 't'
    ensures GovernanceChannel(o)[0] == 'g' && IntelligenceChannel(o)[0] == 'i'
    ensures forall c :: IsGlobal(c) ==> !IsOrgChannel(c, o)
  {
    forall c | IsGlobal(c) ensures !IsOrgChannel(c, o) {
      GlobalChannelsBelongToNobody(c, o);
    }
  }

  lemma OtherChannelBelongs(e: PlatformEvent, c: string, o: OrgId)
    requires c in ChannelsOf(e) && c != e.channel && IsOrgChannel(c, o)
    ensures e.organizationId == Some(o)
  {
    OtherChannels(e, c);
    if IsGlobal(c) {
      GlobalChannelsBelongToNobody(c, o);
    } else {
      OrgChannelsAreDisjoint(c, o, e.organizationId.value);
    }
  }

  lemma OrgNamesAreNotGlobal(e: PlatformEvent, c: string)
    requires IsGlobal(c)
    ensures c !in ForOrg(e, PlatformChannel) && c !in ForOrg(e, ThreatChannel)
    ensures c !in ForOrg(e, GovernanceChannel) && c !in ForOrg(e, IntelligenceChannel)
  {
    if e.organizationId.Some? {
      OwnNames(e.organizationId.value);
    }
  }

  lemma GlobalByType(e: PlatformEvent, c: string)
    requires IsGlobal(c)
    ensures c in ChannelsOf(e) <==>
            || c == e.channel || c == PLATFORM_GLOBAL
            || (c == THREATS_GLOBAL && IsThreatEvent(e.eventType))
            || (c == GOVERNANCE_GLOBAL && IsGovernanceEvent(e.eventType))
            || (c == SYSTEM_HEALTH_GLOBAL && e.eventType.SystemHealthEvent?)
            || (c == INTELLIGENCE_GLOBAL && IsIntelligenceEvent(e.eventType))
  {
    OrgNamesAreNotGlobal(e, c);
  }

  /** The global channels get the same kinds of events from every organization and from none. */
  lemma GlobalChannelsGet(e: PlatformEvent)
    ensures "platform.global" in ChannelsOf(e)
    ensures "threats.global" in ChannelsOf(e) <==>
            e.channel == "threats.global" || e.eventType.ThreatDetected? || e.eventType.PolicyViolation?
    ensures "governance.global" in ChannelsOf(e) <==>
            || e.channel == "governance.global"
            || e.eventType.GovernanceDecisionCreated? || e.eventType.RiskScoreUpdated?
            || e.eventType.GatewayRequestReceived? || e.eventType.PolicyViolation?
    ensures "system.health.global" in ChannelsOf(e) <==>
            e.channel == "system.health.global" || e.eventType.SystemHealthEvent?
    ensures "intelligence.global" in ChannelsOf(e) <==>
            || e.channel == "intelligence.global"
            || e.eventType.AnomalyDetected? || e.eventType.TrustScoreChanged?
            || e.eventType.ThreatCorrelationDetected? || e.eventType.GovernanceRecommendationGenerated?
  {
    GlobalNames();
    GlobalByType(e, "threats.global");
    GlobalByType(e, "governance.global");
    GlobalByType(e, "system.health.global");
    GlobalByType(e, "intelligence.global");
  }

  lemma GlobalNames()
    ensures IsGlobal("platform.global") && IsGlobal("threats.global") && IsGlobal("governance.global")
    ensures IsGlobal("system.health.global") && IsGlobal("intelligence.global")
    ensures PLATFORM_GLOBAL[0] == 'p' && THREATS_GLOBAL[0] == 't' && GOVERNANCE_GLOBAL[0] == 'g'
    ensures SYSTEM_HEALTH_GLOBAL[0] == 's' && INTELLIGENCE_GLOBAL[0] == 'i'
  {
  }

  /** The event reaches organization channels of its own organization only. */
  ghost predicate RoutedToOwnOrg(e: PlatformEvent) {
    forall c, o :: c in ChannelsOf(e) && IsOrgChannel(c, o) ==> e.organizationId == Some(o)
  }

  /**
   * Routing keeps an event inside its organization exactly when the channel its creator put on it
   * is not an organization channel of somebody else.
   */
  lemma RoutingSoundIffOwnChannel(e: PlatformEvent)
    ensures RoutedToOwnOrg(e) <==> forall o :: IsOrgChannel(e.channel, o) ==> e.organizationId == Some(o)
  {
    if forall o :: IsOrgChannel(e.channel, o) ==> e.organizationId == Some(o) {
      forall c, o | c in ChannelsOf(e) && IsOrgChannel(c, o) ensures e.organizationId == Some(o) {
        if c != e.channel {
          OtherChannels(e, c);
          if IsGlobal(c) {
            GlobalChannelsBelongToNobody(c, o);
          } else {
            OrgChannelsAreDisjoint(c, o, e.organizationId.value);
          }
        }
      }
    }
  }

  // ----- publishers -----

  /** One call of a publisher; `event` stands for the identity and payload it will get. */
  datatype Publication =
    | PublishGatewayRequestReceived(organizationId: OrgId)
    | PublishThreatDetected(organizationId: OrgId)
    | PublishPolicyViolation(organizationId: OrgId)
    | PublishRiskScoreUpdated(organizationId: OrgId)
    | PublishGovernanceDecisionCreated(organizationId: OrgId)
    | PublishAgentStatusChanged(organizationId: OrgId)
    | PublishAuditEventCreated(organizationId: OrgId)
    | PublishSystemHealthEvent
    | PublishAnomalyDetected(organizationId: OrgId)
    | PublishTrustScoreChanged(organizationId: OrgId)
    | PublishThreatCorrelationDetected(organizationId: OrgId)
    | PublishGovernanceRecommendationGenerated(organizationId: OrgId)

  function EventOf(p: Publication, id: nat): PlatformEvent {
    match p
    case PublishGatewayRequestReceived(o) => PlatformEvent(id, GatewayRequestReceived, Some(o), PlatformChannel(o))
    case PublishThreatDetected(o) => PlatformEvent(id, ThreatDetected, Some(o), ThreatChannel(o))
    case PublishPolicyViolation(o) => PlatformEvent(id, PolicyViolation, Some(o), GovernanceChannel(o))
    case PublishRiskScoreUpdated(o) => PlatformEvent(id, RiskScoreUpdated, Some(o), GovernanceChannel(o))
    case PublishGovernanceDecisionCreated(o) =>
      PlatformEvent(id, GovernanceDecisionCreated, Some(o), GovernanceChannel(o))
    case PublishAgentStatusChanged(o) => PlatformEvent(id, AgentStatusChanged, Some(o), PlatformChannel(o))
    case PublishAuditEventCreated(o) => PlatformEvent(id, AuditEventCreated, Some(o), PlatformChannel(o))
    case PublishSystemHealthEvent => PlatformEvent(id, SystemHealthEvent, None, SYSTEM_HEALTH_GLOBAL)
    case PublishAnomalyDetected(o) => PlatformEvent(id, AnomalyDetected, Some(o), IntelligenceChannel(o))
    case PublishTrustScoreChanged(o) => PlatformEvent(id, TrustScoreChanged, Some(o), IntelligenceChannel(o))
    case PublishThreatCorrelationDetected(o) =>
      PlatformEvent(id, ThreatCorrelationDetected, Some(o), IntelligenceChannel(o))
    case PublishGovernanceRecommendationGenerated(o) =>
      PlatformEvent(id, GovernanceRecommendationGenerated, Some(o), IntelligenceChannel(o))
  }

  /** A subscriber can tell the publisher by the event's type. */
  lemma TypeTellsPublisher(p: Publication, id: nat)
    ensures var t := EventOf(p, id).eventType;
            && (t == GatewayRequestReceived <==> p.PublishGatewayRequestReceived?)
            && (t == ThreatDetected <==> p.PublishThreatDetected?)
            && (t == PolicyViolation <==> p.PublishPolicyViolation?)
            && (t == RiskScoreUpdated <==> p.PublishRiskScoreUpdated?)
            && (t == GovernanceDecisionCreated <==> p.PublishGovernanceDecisionCreated?)
            && (t == AgentStatusChanged <==> p.PublishAgentStatusChanged?)
            && (t == AuditEventCreated <==> p.PublishAuditEventCreated?)
            && (t == SystemHealthEvent <==> p.PublishSystemHealthEvent?)
            && (t == AnomalyDetected <==> p.PublishAnomalyDetected?)
            && (t == TrustScoreChanged <==> p.PublishTrustScoreChanged?)
            && (t == ThreatCorrelationDetected <==> p.PublishThreatCorrelationDetected?)
            && (t == GovernanceRecommendationGenerated <==> p.PublishGovernanceRecommendationGenerated?)
  {
  }

  /**
   * Every publisher's event stays inside its organization, reaches that organization's platform
   * channel, and, when it belongs to nobody, reaches no organization at all.
   */
  lemma PublishersRouteSoundly(p: Publication, id: nat)
    ensures var e := EventOf(p, id);
            && RoutedToOwnOrg(e)
            && (forall o :: e.organizationId == Some(o) <==> PlatformChannel(o) in ChannelsOf(e))
  {
    var e := EventOf(p, id);
    forall o | IsOrgChannel(e.channel, o) ensures e.organizationId == Some(o) {
      if e.organizationId.Some? {
        OrgChannelsAreDisjoint(e.channel, o, e.organizationId.value);
      } else {
        GlobalChannelsBelongToNobody(e.channel, o);
      }
    }
    RoutingSoundIffOwnChannel(e);
    forall o ensures e.organizationId == Some(o) <==> PlatformChannel(o) in ChannelsOf(e) {
      assert IsOrgChannel(PlatformChannel(o), o);
    }
  }

  /**
   * The channel a publisher writes on its event is one routing derives anyway from the event's
   * type and organization.
   */
  lemma PublisherChannelIsDerived(p: Publication, id: nat)
    ensures ChannelsOf(EventOf(p, id)) == ChannelsOf(EventOf(p, id).(channel := PLATFORM_GLOBAL))
  {
    var e := EventOf(p, id);
    assert e.channel in ChannelsOf(e.(channel := PLATFORM_GLOBAL));
  }
}
