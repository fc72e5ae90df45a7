/** What can be sent to whom: every publisher's events against every route, over runs of the realtime path. */
module EventDelivery {
  import opened Common
  import opened Channels
  import Ws = WsManager
  import Bus = EventBus
  import Streams = StreamManager
  import Routing = TenantRouting

  const MEMBER: Ws.ConnId := 1

  lemma RunPush(front: seq<Routing.Step>, step: Routing.Step, c: Routing.Config)
    ensures Routing.Run(front + [step], c) == Routing.Next(Routing.Run(front, c), step, c)
  {
    assert (front + [step])[..|front|] == front;
  }

  /** The limits let the first client in, with all the channels of its route. */
  predicate Admits(limits: Ws.Limits, allowed: seq<string>) {
    limits.maxGlobal >= 1 && limits.maxPerOrg >= 1 && limits.maxSubscriptions >= |allowed|
  }

  // ----- nothing else is sent -----

  /** The event is routed to a channel that the connection's route allows it. */
  ghost predicate Allowed(sessions: map<Ws.ConnId, Routing.Session>, x: Routing.Sent) {
    x.id in sessions && exists ch :: ch in sessions[x.id].allowed && ch in ChannelsOf(x.event)
  }

  ghost predicate AllAllowed(s: Routing.System) {
    && (forall x :: x in s.sends ==> Allowed(s.sessions, x))
    && (forall x :: x in s.log ==> Allowed(s.sessions, x))
  }

  lemma AllowedGrows(sessions: map<Ws.ConnId, Routing.Session>, id: Ws.ConnId, session: Routing.Session,
                     x: Routing.Sent)
    requires Allowed(sessions, x) && id !in sessions
    ensures Allowed(sessions[id := session], x)
  {
    var ch :| ch in sessions[x.id].allowed && ch in ChannelsOf(x.event);
    assert ch in sessions[id := session][x.id].allowed;
  }

  lemma ConnectKeepsAllowed(s: Routing.System, id: Ws.ConnId, p: Ws.Principal, route: Routing.Route, c: Routing.Config)
    requires AllAllowed(s)
    ensures AllAllowed(Routing.Next(s, Routing.Connect(id, p, route), c))
  {
    var allowed := Routing.AllowedChannels(route, p);
    if allowed.Some? && id !in s.sessions {
      forall x | x in s.sends || x in s.log
        ensures Allowed(s.sessions[id := Routing.Session(p, allowed.value)], x)
      {
        AllowedGrows(s.sessions, id, Routing.Session(p, allowed.value), x);
      }
    }
  }

  lemma AddressedAreAllowed(s: Routing.System, channel: string, x: Routing.Sent, c: Routing.Config)
    requires Routing.Sound(s, c) && Routing.MayBroadcast(s, channel)
    requires x in Routing.Addressed(s.ws, channel, s.bus.hand.value)
    ensures Allowed(s.sessions, x)
  {
    assert channel in s.ws.index.connections[x.id].subscriptions;
    assert channel in s.sessions[x.id].allowed && channel in ChannelsOf(x.event);
  }

  lemma BroadcastKeepsAllowed(s: Routing.System, channel: string, c: Routing.Config)
    requires AllAllowed(s) && Routing.Sound(s, c)
    ensures AllAllowed(Routing.Next(s, Routing.Broadcast(channel), c))
  {
    if Routing.MayBroadcast(s, channel) {
      forall x | x in Routing.Addressed(s.ws, channel, s.bus.hand.value) ensures Allowed(s.sessions, x) {
        AddressedAreAllowed(s, channel, x, c);
      }
    }
  }

  lemma HistoryIsAllowed(s: Routing.System, id: Ws.ConnId, channel: string, limit: Streams.LimitField,
                         c: Routing.Config, e: PlatformEvent)
    requires Routing.Sound(s, c) && e in Routing.HistoryFor(s, c, id, channel, limit)
    ensures Allowed(s.sessions, Routing.Sent(id, e))
  {
    Streams.RecentIsSuffixOfHistory(s.stored, c.retention, channel, Streams.ParseHistoryLimit(limit));
    assert e in Streams.RoutedTo(Streams.EventsOf(s.stored), channel);
    assert channel in s.sessions[id].allowed && channel in ChannelsOf(e);
  }

  lemma HistoryKeepsAllowed(s: Routing.System, id: Ws.ConnId, channel: string, limit: Streams.LimitField,
                            c: Routing.Config)
    requires AllAllowed(s) && Routing.Sound(s, c)
    ensures AllAllowed(Routing.Next(s, Routing.HistoryRequest(id, channel, limit), c))
  {
    var events := Routing.HistoryFor(s, c, id, channel, limit);
    forall i | 0 <= i < |events| ensures Allowed(s.sessions, Routing.Sent(id, events[i])) {
      HistoryIsAllowed(s, id, channel, limit, c, events[i]);
    }
  }

  lemma DeliverKeepsAllowed(s: Routing.System, sent: Routing.Sent, c: Routing.Config)
    requires AllAllowed(s)
    ensures AllAllowed(Routing.Next(s, Routing.Deliver(sent), c))
  {
    assert forall x :: x in s.log + [sent] ==> x in s.log || x == sent;
  }

  lemma OtherStepsSendNothing(s: Routing.System, step: Routing.Step, c: Routing.Config)
    requires !step.Connect? && !step.HistoryRequest? && !step.Broadcast? && !step.Deliver?
    ensures var t := Routing.Next(s, step, c);
            t.sessions == s.sessions && t.sends == s.sends && t.log == s.log
  {
  }

  lemma NextKeepsAllowed(s: Routing.System, step: Routing.Step, c: Routing.Config)
    requires AllAllowed(s) && Routing.Sound(s, c)
    ensures AllAllowed(Routing.Next(s, step, c))
  {
    match step
    case Connect(id, p, route) => ConnectKeepsAllowed(s, id, p, route, c);
    case HistoryRequest(id, channel, limit) => HistoryKeepsAllowed(s, id, channel, limit, c);
    case Broadcast(channel) => BroadcastKeepsAllowed(s, channel, c);
    case Deliver(sent) => DeliverKeepsAllowed(s, sent, c);
    case _ => OtherStepsSendNothing(s, step, c);
  }

  /** In every run, what a connection is sent is routed to a channel its route allows it. */
  lemma {:induction false} OnlyAllowedIsSent(steps: seq<Routing.Step>, c: Routing.Config)
    ensures AllAllowed(Routing.Run(steps, c))
  {
    if steps != [] {
      var front := steps[..|steps| - 1];
      OnlyAllowedIsSent(front, c);
      Routing.RunIsSound(front, c);
      NextKeepsAllowed(Routing.Run(front, c), steps[|steps| - 1], c);
    }
  }

  // ----- a run that delivers -----

  ghost predicate Untouched(s: Routing.System) {
    s.ws == Ws.STARTED && s.sessions == map[] && s.stored == []
  }

  /** The member listens on all the channels of its route. */
  ghost predicate Connected(s: Routing.System, session: Routing.Session) {
    && s.sessions == map[MEMBER := session]
    && MEMBER in s.ws.index.connections
    && forall ch :: ch in session.allowed ==> ch in s.ws.index.connections[MEMBER].subscriptions
  }

  lemma ConnectWaits(s: Routing.System, p: Ws.Principal, route: Routing.Route, allowed: seq<string>, c: Routing.Config)
    requires Admits(c.limits, allowed) && Untouched(s) && Routing.AllowedChannels(route, p) == Some(allowed)
    ensures var t := Routing.Next(s, Routing.Connect(MEMBER, p, route), c);
            && t.bus == s.bus && t.stored == []
            && t.sessions == map[MEMBER := Routing.Session(p, allowed)]
            && t.ws == Ws.State(Ws.EMPTY, map[MEMBER := Ws.Pending(p, allowed)])
  {
    assert Ws.OrgConnections(Ws.EMPTY.connections, p.organizationId) == {};
  }

  lemma AcceptConnects(s: Routing.System, p: Ws.Principal, allowed: seq<string>, c: Routing.Config)
    requires Admits(c.limits, allowed)
    requires s.sessions == map[MEMBER := Routing.Session(p, allowed)] && s.stored == []
    requires s.ws == Ws.State(Ws.EMPTY, map[MEMBER := Ws.Pending(p, allowed)])
    ensures var t := Routing.Next(s, Routing.Accept(MEMBER, 0), c);
            Connected(t, Routing.Session(p, allowed)) && t.bus == s.bus && t.stored == []
  {
    Ws.InsertFrame(Ws.EMPTY, MEMBER, p, allowed, c.limits, 0);
    assert FirstN(allowed, c.limits.maxSubscriptions) == allowed;
  }

  lemma StartTouchesTheBusOnly(c: Routing.Config)
    ensures var t := Routing.Next(Routing.BOOT, Routing.Worker(Bus.Start), c);
            Untouched(t) && t.bus == Bus.Next(Routing.BOOT.bus, Bus.Start, c.queueSize)
  {
  }

  ghost predicate Ready(s: Routing.System, session: Routing.Session, c: Routing.Config) {
    && Connected(s, session) && s.stored == []
    && s.bus == Bus.Next(Routing.BOOT.bus, Bus.Start, c.queueSize)
  }

  /** The member connects to a freshly started bus. */
  function Listening(p: Ws.Principal, route: Routing.Route): seq<Routing.Step> {
    [] + [Routing.Worker(Bus.Start)] + [Routing.Connect(MEMBER, p, route)] + [Routing.Accept(MEMBER, 0)]
  }

  lemma MemberListens(p: Ws.Principal, route: Routing.Route, allowed: seq<string>, c: Routing.Config)
    requires Admits(c.limits, allowed) && Routing.AllowedChannels(route, p) == Some(allowed)
    ensures Ready(Routing.Run(Listening(p, route), c), Routing.Session(p, allowed), c)
  {
    var start := Routing.Worker(Bus.Start);
    var connect, accept := Routing.Connect(MEMBER, p, route), Routing.Accept(MEMBER, 0);
    var s1 := Routing.Next(Routing.BOOT, start, c);
    var s2 := Routing.Next(s1, connect, c);
    StartTouchesTheBusOnly(c);
    ConnectWaits(s1, p, route, allowed, c);
    AcceptConnects(s2, p, allowed, c);
    RunPush([], start, c);
    assert Routing.Run([], c) == Routing.BOOT && Routing.Run([] + [start], c) == s1;
    RunPush([] + [start], connect, c);
    assert Routing.Run([] + [start] + [connect], c) == s2;
    RunPush([] + [start] + [connect], accept, c);
  }

  /** A run that makes the member listen, seen from outside. */
  lemma SomeRunListens(p: Ws.Principal, route: Routing.Route, allowed: seq<string>, c: Routing.Config)
    returns (front: seq<Routing.Step>)
    requires Admits(c.limits, allowed) && Routing.AllowedChannels(route, p) == Some(allowed)
    ensures Ready(Routing.Run(front, c), Routing.Session(p, allowed), c)
    ensures forall step :: step in front ==> !step.Publish? && !step.Broadcast?
  {
    front := Listening(p, route);
    MemberListens(p, route, allowed, c);
  }

  function Taking(front: seq<Routing.Step>, p: Publication, id: nat): seq<Routing.Step> {
    front + [Routing.Publish(p, id)] + [Routing.Worker(Bus.Await)] + [Routing.Worker(Bus.Take)]
  }

  ghost predicate Holds(s: Routing.System, session: Routing.Session, e: PlatformEvent) {
    Connected(s, session) && s.stored == [] && s.bus.running && s.bus.hand == Some(e) && !s.retained
  }

  lemma FirstEventIsTaken(e: PlatformEvent, size: int)
    ensures var b := Bus.Next(Bus.Next(Routing.BOOT.bus, Bus.Start, size), Bus.Publish(e), size);
            var taken := Bus.Next(Bus.Next(b, Bus.Await, size), Bus.Take, size);
            Bus.Next(b, Bus.Await, size).hand == None && taken.running && taken.hand == Some(e)
  {
    var b := Bus.Next(Bus.Next(Routing.BOOT.bus, Bus.Start, size), Bus.Publish(e), size);
    assert b.queue == [e];
  }

  /** A published event reaches the worker's hand. */
  lemma EventIsTaken(front: seq<Routing.Step>, session: Routing.Session, p: Publication, id: nat, c: Routing.Config)
    requires Ready(Routing.Run(front, c), session, c)
    ensures Holds(Routing.Run(Taking(front, p, id), c), session, EventOf(p, id))
  {
    var s1 := front + [Routing.Publish(p, id)];
    RunPush(front, Routing.Publish(p, id), c);
    RunPush(s1, Routing.Worker(Bus.Await), c);
    RunPush(s1 + [Routing.Worker(Bus.Await)], Routing.Worker(Bus.Take), c);
    FirstEventIsTaken(EventOf(p, id), c.queueSize);
  }

  lemma BroadcastKeepsTheRest(s: Routing.System, channel: string, c: Routing.Config)
    ensures var t := Routing.Next(s, Routing.Broadcast(channel), c);
            t.sessions == s.sessions && t.ws == s.ws
  {
  }

  lemma DeliverPuts(s: Routing.System, sent: Routing.Sent, c: Routing.Config)
    requires sent in s.sends
    ensures var t := Routing.Next(s, Routing.Deliver(sent), c);
            t.sessions == s.sessions && t.ws == s.ws && sent in t.log
  {
  }

  function Delivering(front: seq<Routing.Step>, channel: string, e: PlatformEvent): seq<Routing.Step> {
    front + [Routing.Broadcast(channel)] + [Routing.Deliver(Routing.Sent(MEMBER, e))]
  }

  /** An event in hand is delivered to the member on a channel it is routed to. */
  lemma EventIsDelivered(front: seq<Routing.Step>, session: Routing.Session, e: PlatformEvent, channel: string,
                         c: Routing.Config)
    requires Holds(Routing.Run(front, c), session, e) && channel in session.allowed && channel in ChannelsOf(e)
    ensures var s := Routing.Run(Delivering(front, channel, e), c);
            Connected(s, session) && Routing.Sent(MEMBER, e) in s.log
  {
    var broadcast, deliver := Routing.Broadcast(channel), Routing.Deliver(Routing.Sent(MEMBER, e));
    RunPush(front, broadcast, c);
    RunPush(front + [broadcast], deliver, c);
    Routing.BroadcastAddressesSubscribers(front, c, channel, MEMBER);
    BroadcastKeepsTheRest(Routing.Run(front, c), channel, c);
    DeliverPuts(Routing.Run(front + [broadcast], c), Routing.Sent(MEMBER, e), c);
  }

  /** Every event is delivered, in some run, to a listener on any channel it is routed to. */
  lemma ListenerIsSent(p: Ws.Principal, route: Routing.Route, allowed: seq<string>, channel: string,
                       publication: Publication, id: nat, c: Routing.Config) returns (steps: seq<Routing.Step>)
    requires Routing.AllowedChannels(route, p) == Some(allowed) && Admits(c.limits, allowed)
    requires channel in allowed && channel in ChannelsOf(EventOf(publication, id))
    ensures forall step :: step in steps && step.Publish? ==> step == Routing.Publish(publication, id)
    ensures var s := Routing.Run(steps, c);
            Connected(s, Routing.Session(p, allowed)) && Routing.Sent(MEMBER, EventOf(publication, id)) in s.log
  {
    var session := Routing.Session(p, allowed);
    var front := SomeRunListens(p, route, allowed, c);
    EventIsTaken(front, session, publication, id, c);
    EventIsDelivered(Taking(front, publication, id), session, EventOf(publication, id), channel, c);
    steps := Delivering(Taking(front, publication, id), channel, EventOf(publication, id));
  }

  // ----- and as history -----

  lemma {:induction false} SomeOrder(names: set<string>) returns (order: seq<string>)
    ensures forall c :: c in order <==> c in names
    ensures forall i, j :: 0 <= i < j < |order| ==> order[i] != order[j]
    decreases |names|
  {
    if names == {} {
      order := [];
    } else {
      var c :| c in names;
      var rest := SomeOrder(names - {c});
      order := [c] + rest;
    }
  }

  lemma RetainStores(s: Routing.System, session: Routing.Session, e: PlatformEvent, names: seq<string>,
                     c: Routing.Config)
    requires Holds(s, session, e) && Streams.Routed(Streams.Stored(e, names))
    ensures var t := Routing.Next(s, Routing.Retain(names), c);
            Connected(t, session) && t.stored == [Streams.Stored(e, names)]
  {
  }

  lemma HistoryHasTheEvent(s: Routing.System, session: Routing.Session, x: Streams.Stored, channel: string,
                           c: Routing.Config)
    requires Connected(s, session) && s.stored == [x] && Streams.Routed(x) && c.retention >= 1
    requires channel in session.allowed && channel in ChannelsOf(x.event)
    ensures Routing.HistoryFor(s, c, MEMBER, channel, Streams.Absent) == [x.event]
  {
    Streams.RecentIsSuffixOfHistory(s.stored, c.retention, channel, 20);
    assert Streams.EventsOf(s.stored) == [x.event];
    assert [x.event][..0] == [];
    assert Streams.RoutedTo([x.event], channel) == Streams.RoutedTo([], channel) + [x.event] == [x.event];
  }

  lemma HistoryRequestPuts(s: Routing.System, channel: string, e: PlatformEvent, c: Routing.Config)
    requires Routing.HistoryFor(s, c, MEMBER, channel, Streams.Absent) == [e]
    ensures var t := Routing.Next(s, Routing.HistoryRequest(MEMBER, channel, Streams.Absent), c);
            t.sessions == s.sessions && Routing.Sent(MEMBER, e) in t.log
  {
    assert Routing.SendAll(MEMBER, [e])[0] == Routing.Sent(MEMBER, e);
  }

  function Replaying(front: seq<Routing.Step>, names: seq<string>, channel: string): seq<Routing.Step> {
    front + [Routing.Retain(names)] + [Routing.HistoryRequest(MEMBER, channel, Streams.Absent)]
  }

  lemma EventIsReplayed(front: seq<Routing.Step>, session: Routing.Session, e: PlatformEvent, names: seq<string>,
                        channel: string, c: Routing.Config)
    requires Holds(Routing.Run(front, c), session, e) && Streams.Routed(Streams.Stored(e, names)) && c.retention >= 1
    requires channel in session.allowed && channel in ChannelsOf(e)
    ensures var s := Routing.Run(Replaying(front, names, channel), c);
            s.sessions == map[MEMBER := session] && Routing.Sent(MEMBER, e) in s.log
  {
    var retained := front + [Routing.Retain(names)];
    RunPush(front, Routing.Retain(names), c);
    RunPush(retained, Routing.HistoryRequest(MEMBER, channel, Streams.Absent), c);
    RetainStores(Routing.Run(front, c), session, e, names, c);
    HistoryHasTheEvent(Routing.Run(retained, c), session, Streams.Stored(e, names), channel, c);
    HistoryRequestPuts(Routing.Run(retained, c), channel, e, c);
  }

  /** It is also sent as history, without any broadcast, when anything at all is retained. */
  lemma ListenerIsSentHistory(p: Ws.Principal, route: Routing.Route, allowed: seq<string>, channel: string,
                              publication: Publication, id: nat, c: Routing.Config)
    returns (steps: seq<Routing.Step>)
    requires Routing.AllowedChannels(route, p) == Some(allowed) && Admits(c.limits, allowed)
    requires channel in allowed && channel in ChannelsOf(EventOf(publication, id)) && c.retention >= 1
    ensures forall step :: step in steps ==> !step.Broadcast?
    ensures var s := Routing.Run(steps, c);
            && s.sessions == map[MEMBER := Routing.Session(p, allowed)]
            && Routing.Sent(MEMBER, EventOf(publication, id)) in s.log
  {
    var session, e := Routing.Session(p, allowed), EventOf(publication, id);
    var names := SomeOrder(ChannelsOf(e));
    var front := SomeRunListens(p, route, allowed, c);
    EventIsTaken(front, session, publication, id, c);
    EventIsReplayed(Taking(front, publication, id), session, e, names, channel, c);
    steps := Replaying(Taking(front, publication, id), names, channel);
  }

  // ----- who hears what -----

  /** Some run sends the event to a client that connected with this session. */
  ghost predicate CanBeSent(session: Routing.Session, e: PlatformEvent, c: Routing.Config) {
    exists steps :: Reached(Routing.Run(steps, c), session, e)
  }

  ghost predicate Reached(s: Routing.System, session: Routing.Session, e: PlatformEvent) {
    MEMBER in s.sessions && s.sessions[MEMBER] == session && Routing.Sent(MEMBER, e) in s.log
  }

  /** A publisher's event can be sent to a route's client exactly when some channel of the route gets it. */
  lemma SentIffRouted(p: Ws.Principal, route: Routing.Route, allowed: seq<string>, publication: Publication, id: nat,
                      c: Routing.Config)
    requires Routing.AllowedChannels(route, p) == Some(allowed) && Admits(c.limits, allowed)
    ensures CanBeSent(Routing.Session(p, allowed), EventOf(publication, id), c) <==>
            exists channel :: channel in allowed && channel in ChannelsOf(EventOf(publication, id))
  {
    var session, e := Routing.Session(p, allowed), EventOf(publication, id);
    if channel :| channel in allowed && channel in ChannelsOf(e) {
      var steps := ListenerIsSent(p, route, allowed, channel, publication, id, c);
      assert Reached(Routing.Run(steps, c), session, e);
    }
    if CanBeSent(session, e, c) {
      var steps :| Reached(Routing.Run(steps, c), session, e);
      OnlyAllowedIsSent(steps, c);
      assert Allowed(Routing.Run(steps, c).sessions, Routing.Sent(MEMBER, e));
    }
  }

  /** The organization a publication is about; health events are about none. */
  function OrgOf(p: Publication): Option<OrgId> {
    if p.PublishSystemHealthEvent? then None else Some(p.organizationId)
  }

  /** A publisher's event is on an organization's channels by its organization and its kind alone. */
  lemma OrgChannelsByKind(p: Publication, id: nat, o: OrgId)
    ensures var cs := ChannelsOf(EventOf(p, id));
            && (PlatformChannel(o) in cs <==> OrgOf(p) == Some(o))
            && (ThreatChannel(o) in cs <==> p == PublishThreatDetected(o) || p == PublishPolicyViolation(o))
            && (GovernanceChannel(o) in cs <==>
                  || p == PublishGatewayRequestReceived(o) || p == PublishRiskScoreUpdated(o)
                  || p == PublishPolicyViolation(o) || p == PublishGovernanceDecisionCreated(o))
            && (IntelligenceChannel(o) in cs <==>
                  || p == PublishAnomalyDetected(o) || p == PublishTrustScoreChanged(o)
                  || p == PublishThreatCorrelationDetected(o) || p == PublishGovernanceRecommendationGenerated(o))
  {
    var e := EventOf(p, id);
    PublisherChannelIsDerived(p, id);
    var plain := e.(channel := PLATFORM_GLOBAL);
    GlobalNames();
    OwnNames(o);
    PlatformChannelGets(plain, o);
    ThreatChannelGets(plain, o);
    GovernanceChannelGets(plain, o);
    IntelligenceChannelGets(plain, o);
  }

  /** And on the global channels by its kind. */
  lemma GlobalChannelsByKind(p: Publication, id: nat)
    ensures var cs := ChannelsOf(EventOf(p, id));
            && PLATFORM_GLOBAL in cs
            && (THREATS_GLOBAL in cs <==> p.PublishThreatDetected? || p.PublishPolicyViolation?)
            && (GOVERNANCE_GLOBAL in cs <==>
                  || p.PublishGatewayRequestReceived? || p.PublishRiskScoreUpdated?
                  || p.PublishPolicyViolation? || p.PublishGovernanceDecisionCreated?)
            && (INTELLIGENCE_GLOBAL in cs <==>
                  || p.PublishAnomalyDetected? || p.PublishTrustScoreChanged?
                  || p.PublishThreatCorrelationDetected? || p.PublishGovernanceRecommendationGenerated?)
  {
    PublisherChannelIsDerived(p, id);
    GlobalNames();
    GlobalChannelsGet(EventOf(p, id).(channel := PLATFORM_GLOBAL));
  }

  /** What a member of an organization can be sent, route by route: its own events, of the route's kinds. */
  lemma MembersHear(o: OrgId, p: Publication, id: nat, c: Routing.Config)
    requires c.limits.maxGlobal >= 1 && c.limits.maxPerOrg >= 1 && c.limits.maxSubscriptions >= 1
    ensures var member, e := Ws.Principal(o, false), EventOf(p, id);
            && (CanBeSent(Routing.Session(member, [PlatformChannel(o)]), e, c) <==> OrgOf(p) == Some(o))
            && (CanBeSent(Routing.Session(member, [ThreatChannel(o)]), e, c) <==>
                  p == PublishThreatDetected(o) || p == PublishPolicyViolation(o))
            && (CanBeSent(Routing.Session(member, [GovernanceChannel(o)]), e, c) <==>
                  || p == PublishGatewayRequestReceived(o) || p == PublishRiskScoreUpdated(o)
                  || p == PublishPolicyViolation(o) || p == PublishGovernanceDecisionCreated(o))
            && (CanBeSent(Routing.Session(member, [IntelligenceChannel(o)]), e, c) <==>
                  || p == PublishAnomalyDetected(o) || p == PublishTrustScoreChanged(o)
                  || p == PublishThreatCorrelationDetected(o) || p == PublishGovernanceRecommendationGenerated(o))
  {
    var member := Ws.Principal(o, false);
    OrgChannelsByKind(p, id, o);
    OneChannelHears(member, Routing.PlatformRoute, PlatformChannel(o), p, id, c);
    OneChannelHears(member, Routing.ThreatsRoute, ThreatChannel(o), p, id, c);
    OneChannelHears(member, Routing.GovernanceRoute, GovernanceChannel(o), p, id, c);
    OneChannelHears(member, Routing.IntelligenceRoute, IntelligenceChannel(o), p, id, c);
  }

  lemma OneChannelHears(p: Ws.Principal, route: Routing.Route, channel: string, publication: Publication, id: nat,
                        c: Routing.Config)
    requires Routing.AllowedChannels(route, p) == Some([channel]) && Admits(c.limits, [channel])
    ensures CanBeSent(Routing.Session(p, [channel]), EventOf(publication, id), c) <==>
            channel in ChannelsOf(EventOf(publication, id))
  {
    SentIffRouted(p, route, [channel], publication, id, c);
    assert channel in [channel];
  }

  /** What a super admin can be sent: everybody's events of the route's kinds, and health events too. */
  lemma SuperAdminsHear(o: OrgId, p: Publication, id: nat, c: Routing.Config)
    requires c.limits.maxGlobal >= 1 && c.limits.maxPerOrg >= 1 && c.limits.maxSubscriptions >= 1
    ensures var admin, e := Ws.Principal(o, true), EventOf(p, id);
            && CanBeSent(Routing.Session(admin, [PLATFORM_GLOBAL]), e, c)
            && (CanBeSent(Routing.Session(admin, [THREATS_GLOBAL]), e, c) <==>
                  p.PublishThreatDetected? || p.PublishPolicyViolation?)
            && (CanBeSent(Routing.Session(admin, [GOVERNANCE_GLOBAL]), e, c) <==>
                  || p.PublishGatewayRequestReceived? || p.PublishRiskScoreUpdated?
                  || p.PublishPolicyViolation? || p.PublishGovernanceDecisionCreated?)
            && (CanBeSent(Routing.Session(admin, [INTELLIGENCE_GLOBAL]), e, c) <==>
                  || p.PublishAnomalyDetected? || p.PublishTrustScoreChanged?
                  || p.PublishThreatCorrelationDetected? || p.PublishGovernanceRecommendationGenerated?)
  {
    var admin := Ws.Principal(o, true);
    GlobalChannelsByKind(p, id);
    OneChannelHears(admin, Routing.PlatformRoute, PLATFORM_GLOBAL, p, id, c);
    OneChannelHears(admin, Routing.ThreatsRoute, THREATS_GLOBAL, p, id, c);
    OneChannelHears(admin, Routing.GovernanceRoute, GOVERNANCE_GLOBAL, p, id, c);
    OneChannelHears(admin, Routing.IntelligenceRoute, INTELLIGENCE_GLOBAL, p, id, c);
  }

  /** The organization route gives its members, and super admins, all events of that organization. */
  lemma OrganizationRouteHears(viewer: Ws.Principal, o: OrgId, p: Publication, id: nat, c: Routing.Config)
    requires viewer.superAdmin || viewer.organizationId == o
    requires c.limits.maxGlobal >= 1 && c.limits.maxPerOrg >= 1 && c.limits.maxSubscriptions >= 3
    ensures var allowed := [PlatformChannel(o), ThreatChannel(o), GovernanceChannel(o)];
            CanBeSent(Routing.Session(viewer, allowed), EventOf(p, id), c) <==> OrgOf(p) == Some(o)
  {
    var allowed := [PlatformChannel(o), ThreatChannel(o), GovernanceChannel(o)];
    OrgChannelsByKind(p, id, o);
    SentIffRouted(viewer, Routing.OrganizationRoute(o), allowed, p, id, c);
    assert allowed[0] in allowed;
  }
}
