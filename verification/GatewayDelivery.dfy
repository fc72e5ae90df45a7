/** Gateway requests end to end: whose agents the delivered events are about. */
module GatewayDelivery {
  import opened Common
  import opened Channels
  import opened EventDelivery
  import opened GatewayEvents
  import Ws = WsManager
  import Bus = EventBus
  import Streams = StreamManager
  import Routing = TenantRouting

  /** Event ids tell which request an event came from. */
  type Requests = nat -> GatewayRequest

  /** Everything published in the run comes from the gateway requests. */
  ghost predicate OnlyRequests(steps: seq<Routing.Step>, requests: Requests) {
    forall step :: step in steps && step.Publish? ==> step.publication in Published(requests(step.eventId))
  }

  /** What an ordinary principal has been sent is about agents of its own organization. */
  ghost predicate DeliveredToOwners(s: Routing.System, requests: Requests) {
    forall x :: x in s.log && x.id in s.sessions && !s.sessions[x.id].principal.superAdmin ==>
      s.sessions[x.id].principal.organizationId == requests(x.event.eventId).agentOrg
  }

  ghost predicate OwnersOnly(requests: Requests, c: Routing.Config) {
    forall steps :: OnlyRequests(steps, requests) ==> DeliveredToOwners(Routing.Run(steps, c), requests)
  }

  ghost predicate ActorsShareOrg(requests: Requests) {
    forall id :: requests(id).actorOrg == requests(id).agentOrg
  }

  // ----- shared organizations -----

  predicate UnderAgent(e: PlatformEvent, requests: Requests) {
    e.organizationId == Some(requests(e.eventId).agentOrg)
  }

  ghost predicate BusUnderAgent(b: Bus.Bus, requests: Requests) {
    && (forall e :: e in b.queue ==> UnderAgent(e, requests))
    && (b.hand.Some? ==> UnderAgent(b.hand.value, requests))
  }

  /** Every event anywhere in the system carries the organization of the agent it is about. */
  ghost predicate AllUnderAgent(s: Routing.System, requests: Requests) {
    && BusUnderAgent(s.bus, requests)
    && (forall x :: x in s.stored ==> UnderAgent(x.event, requests))
    && (forall x :: x in s.sends ==> UnderAgent(x.event, requests))
    && (forall x :: x in s.log ==> UnderAgent(x.event, requests))
  }

  lemma BusStepKeepsUnderAgent(b: Bus.Bus, step: Bus.Step, size: int, requests: Requests)
    requires BusUnderAgent(b, requests) && (step.Publish? ==> UnderAgent(step.event, requests))
    ensures BusUnderAgent(Bus.Next(b, step, size), requests)
  {
    if step.Take? && b.queue != [] {
      assert b.queue == [b.queue[0]] + b.queue[1..];
    }
  }

  lemma PublishedUnderAgent(p: Publication, id: nat, requests: Requests)
    requires ActorsShareOrg(requests) && p in Published(requests(id))
    ensures UnderAgent(EventOf(p, id), requests)
  {
    EventOrganization(requests(id), p, id);
    EventKeepsId(p, id);
    assert requests(id).actorOrg == requests(id).agentOrg;
  }

  lemma EventKeepsId(p: Publication, id: nat)
    ensures EventOf(p, id).eventId == id
  {
  }

  lemma PublishKeepsUnderAgent(s: Routing.System, p: Publication, id: nat, c: Routing.Config, requests: Requests)
    requires AllUnderAgent(s, requests) && ActorsShareOrg(requests) && p in Published(requests(id))
    ensures AllUnderAgent(Routing.Next(s, Routing.Publish(p, id), c), requests)
  {
    var e := EventOf(p, id);
    assert UnderAgent(e, requests) by {
      PublishedUnderAgent(p, id, requests);
    }
    BusStepKeepsUnderAgent(s.bus, Bus.Publish(e), c.queueSize, requests);
  }

  lemma WorkerKeepsUnderAgent(s: Routing.System, b: Bus.Step, c: Routing.Config, requests: Requests)
    requires AllUnderAgent(s, requests)
    ensures AllUnderAgent(Routing.Next(s, Routing.Worker(b), c), requests)
  {
    if !b.Publish? {
      BusStepKeepsUnderAgent(s.bus, b, c.queueSize, requests);
    }
  }

  lemma RetainKeepsUnderAgent(s: Routing.System, names: seq<string>, c: Routing.Config, requests: Requests)
    requires AllUnderAgent(s, requests)
    ensures AllUnderAgent(Routing.Next(s, Routing.Retain(names), c), requests)
  {
    if Routing.MayRetain(s, names) {
      var x := Streams.Stored(s.bus.hand.value, names);
      assert forall y :: y in s.stored + [x] ==> y in s.stored || y == x;
    }
  }

  lemma HistoryIsUnderAgent(s: Routing.System, id: Ws.ConnId, channel: string, limit: Streams.LimitField,
                            c: Routing.Config, requests: Requests, e: PlatformEvent)
    requires AllUnderAgent(s, requests) && Routing.Sound(s, c)
    requires e in Routing.HistoryFor(s, c, id, channel, limit)
    ensures UnderAgent(e, requests)
  {
    Streams.RecentIsSuffixOfHistory(s.stored, c.retention, channel, Streams.ParseHistoryLimit(limit));
    var all := Streams.EventsOf(s.stored);
    assert e in Streams.RoutedTo(all, channel);
    var i :| 0 <= i < |all| && all[i] == e;
    assert s.stored[i] in s.stored;
  }

  lemma HistoryKeepsUnderAgent(s: Routing.System, id: Ws.ConnId, channel: string, limit: Streams.LimitField,
                               c: Routing.Config, requests: Requests)
    requires AllUnderAgent(s, requests) && Routing.Sound(s, c)
    ensures AllUnderAgent(Routing.Next(s, Routing.HistoryRequest(id, channel, limit), c), requests)
  {
    var events := Routing.HistoryFor(s, c, id, channel, limit);
    forall i | 0 <= i < |events| ensures UnderAgent(events[i], requests) {
      HistoryIsUnderAgent(s, id, channel, limit, c, requests, events[i]);
    }
  }

  lemma DeliverKeepsUnderAgent(s: Routing.System, sent: Routing.Sent, c: Routing.Config, requests: Requests)
    requires AllUnderAgent(s, requests)
    ensures AllUnderAgent(Routing.Next(s, Routing.Deliver(sent), c), requests)
  {
    assert forall x :: x in s.log + [sent] ==> x in s.log || x == sent;
  }

  predicate IsConnectionStep(step: Routing.Step) {
    !(step.HistoryRequest? || step.Publish? || step.Worker? || step.Retain? || step.Broadcast? || step.Deliver?)
  }

  lemma ConnectionStepsMoveNoEvents(s: Routing.System, step: Routing.Step, c: Routing.Config)
    requires IsConnectionStep(step)
    ensures var t := Routing.Next(s, step, c);
            t.bus == s.bus && t.stored == s.stored && t.sends == s.sends && t.log == s.log
  {
  }

  lemma NextKeepsUnderAgent(s: Routing.System, step: Routing.Step, c: Routing.Config, requests: Requests)
    requires AllUnderAgent(s, requests) && Routing.Sound(s, c) && ActorsShareOrg(requests)
    requires step.Publish? ==> step.publication in Published(requests(step.eventId))
    ensures AllUnderAgent(Routing.Next(s, step, c), requests)
  {
    if IsConnectionStep(step) {
      ConnectionStepsMoveNoEvents(s, step, c);
      return;
    }
    match step
    case HistoryRequest(id, channel, limit) => HistoryKeepsUnderAgent(s, id, channel, limit, c, requests);
    case Publish(p, id) => PublishKeepsUnderAgent(s, p, id, c, requests);
    case Worker(b) => WorkerKeepsUnderAgent(s, b, c, requests);
    case Retain(names) => RetainKeepsUnderAgent(s, names, c, requests);
    case Broadcast(channel) =>
    case Deliver(sent) => DeliverKeepsUnderAgent(s, sent, c, requests);
  }

  lemma {:induction false} RunKeepsUnderAgent(steps: seq<Routing.Step>, c: Routing.Config, requests: Requests)
    requires OnlyRequests(steps, requests) && ActorsShareOrg(requests)
    ensures AllUnderAgent(Routing.Run(steps, c), requests)
  {
    if steps != [] {
      var front, step := steps[..|steps| - 1], steps[|steps| - 1];
      assert step in steps;
      RunKeepsUnderAgent(front, c, requests);
      Routing.RunIsSound(front, c);
      NextKeepsUnderAgent(Routing.Run(front, c), step, c, requests);
    }
  }

  lemma SharedMeansOwnersOnly(requests: Requests, c: Routing.Config)
    requires ActorsShareOrg(requests)
    ensures OwnersOnly(requests, c)
  {
    forall steps: seq<Routing.Step> | OnlyRequests(steps, requests)
      ensures DeliveredToOwners(Routing.Run(steps, c), requests)
    {
      RunKeepsUnderAgent(steps, c, requests);
      forall x | x in Routing.Run(steps, c).log ensures UnderAgent(x.event, requests) {
      }
      forall x | x in Routing.Run(steps, c).log
        ensures var sessions := Routing.Run(steps, c).sessions;
                x.id in sessions
                && (sessions[x.id].principal.superAdmin
                    || x.event.organizationId == Some(sessions[x.id].principal.organizationId))
      {
        Routing.NoCrossTenantDelivery(steps, c, x);
      }
    }
  }

  // ----- a foreign actor -----

  predicate AdmitsOne(limits: Ws.Limits) {
    limits.maxGlobal >= 1 && limits.maxPerOrg >= 1 && limits.maxSubscriptions >= 1
  }

  /** Somebody of `org` causes an audit event, and an ordinary member of `org` is sent it. */
  lemma AuditEventIsDelivered(org: OrgId, id: nat, c: Routing.Config) returns (steps: seq<Routing.Step>)
    requires AdmitsOne(c.limits)
    ensures forall step :: step in steps && step.Publish? ==> step == Routing.Publish(PublishAuditEventCreated(org), id)
    ensures var s := Routing.Run(steps, c);
            && MEMBER in s.sessions && s.sessions[MEMBER].principal == Ws.Principal(org, false)
            && Routing.Sent(MEMBER, EventOf(PublishAuditEventCreated(org), id)) in s.log
  {
    var allowed := [PlatformChannel(org)];
    OrgChannelsByKind(PublishAuditEventCreated(org), id, org);
    assert allowed[0] in allowed;
    steps := ListenerIsSent(Ws.Principal(org, false), Routing.PlatformRoute, allowed, allowed[0],
                            PublishAuditEventCreated(org), id, c);
  }

  /**
   * Ordinary principals are sent events about their own organization's agents only, in every run
   * of the gateway requests, exactly when every acting user belongs to the agent's organization.
   */
  lemma OwnersOnlyIffActorsShareOrg(requests: Requests, c: Routing.Config)
    requires AdmitsOne(c.limits)
    ensures OwnersOnly(requests, c) <==> ActorsShareOrg(requests)
  {
    if ActorsShareOrg(requests) {
      SharedMeansOwnersOnly(requests, c);
    } else {
      var id :| requests(id).actorOrg != requests(id).agentOrg;
      var org := requests(id).actorOrg;
      var steps := AuditEventIsDelivered(org, id, c);
      EventKeepsId(PublishAuditEventCreated(org), id);
      assert Published(requests(id))[0] == PublishAuditEventCreated(org);
      assert OnlyRequests(steps, requests);
      assert !DeliveredToOwners(Routing.Run(steps, c), requests);
    }
  }
}
