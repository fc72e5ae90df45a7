/**
 * The realtime path end to end: publishers, bus, retention, broadcast and history of
 * backend/app/api/routes/ws.py, run by the manager, the bus and the streams together.
 */
module TenantRouting {
  import opened Common
  import opened Channels
  import Ws = WsManager
  import Bus = EventBus
  import Streams = StreamManager

  datatype Route =
    | PlatformRoute
    | OrganizationRoute(organizationId: OrgId)
    | ThreatsRoute
    | GovernanceRoute
    | IntelligenceRoute

  /** The channels a route lets a principal use; `None` closes the socket as a tenant violation. */
  function AllowedChannels(r: Route, p: Ws.Principal): Option<seq<string>> {
    var o := p.organizationId;
    match r
    case PlatformRoute => Some(if p.superAdmin then [PLATFORM_GLOBAL] else [PlatformChannel(o)])
    case OrganizationRoute(target) =>
      if !p.superAdmin && o != target then None
      else Some([PlatformChannel(target), ThreatChannel(target), GovernanceChannel(target)])
    case ThreatsRoute => Some(if p.superAdmin then [THREATS_GLOBAL] else [ThreatChannel(o)])
    case GovernanceRoute => Some(if p.superAdmin then [GOVERNANCE_GLOBAL] else [GovernanceChannel(o)])
    case IntelligenceRoute => Some(if p.superAdmin then [INTELLIGENCE_GLOBAL] else [IntelligenceChannel(o)])
  }

  datatype Session = Session(principal: Ws.Principal, allowed: seq<string>)

  datatype Sent = Sent(id: Ws.ConnId, event: PlatformEvent)

  /**
   * `sessions` remembers every connection ever admitted to a route, `sends` the messages a
   * broadcast has addressed, and `log` everything put on a socket, live or as history. `base` is
   * what retention had stored when the bus last started, and `retained` says whether it has stored
   * the event in the worker's hand.
   */
  datatype System = System(
    ws: Ws.State,
    sessions: map<Ws.ConnId, Session>,
    bus: Bus.Bus,
    stored: seq<Streams.Stored>,
    base: nat,
    retained: bool,
    sends: set<Sent>,
    log: seq<Sent>)

  datatype Config = Config(limits: Ws.Limits, queueSize: int, retention: nat)

  const RETENTION := "stream-retention"
  const BROADCAST := "ws-broadcast"

  /** Both subscribers are registered for every event before the bus starts, and stay registered. */
  const SUBSCRIBED := map[None := [Bus.Registration(RETENTION, 0), Bus.Registration(BROADCAST, 1)]]

  const BOOT := System(Ws.STARTED, map[], Bus.IDLE.(subscribers := SUBSCRIBED), [], 0, false, {}, [])

  /**
   * Atomic steps. While an event is in the worker's hand its retention and its broadcasts, one per
   * channel, happen in any order and around anything else, unless a stop cancels them; retention
   * stores the event once, under the channel list that routing computes, in some order; the
   * dispatch is done only when retention is; a message addressed by a broadcast is put on its
   * socket at any later time. The history sent after connecting is a `HistoryRequest` with a limit
   * of twenty.
   */
  datatype Step =
    | Connect(id: Ws.ConnId, principal: Ws.Principal, route: Route)
    | Accept(id: Ws.ConnId, at: int)
    | Abort(id: Ws.ConnId)
    | Close(id: Ws.ConnId)
    | Activity(id: Ws.ConnId, at: int)
    | SubscribeRequest(id: Ws.ConnId, channel: string, at: int)
    | UnsubscribeRequest(id: Ws.ConnId, channel: string, at: int)
    | HistoryRequest(id: Ws.ConnId, channel: string, limit: Streams.LimitField)
    | StopManager
    | Publish(publication: Publication, eventId: nat)
    | Worker(busStep: Bus.Step)
    | Retain(names: seq<string>)
    | Broadcast(channel: string)
    | Deliver(sent: Sent)

  function HistoryFor(s: System, c: Config, id: Ws.ConnId, channel: string,
                      limit: Streams.LimitField): seq<PlatformEvent> {
    if id in s.sessions && channel in s.sessions[id].allowed then
      Streams.Recent(Streams.Replay(s.stored, c.retention), channel, Streams.ParseHistoryLimit(limit))
    else []
  }

  function SendAll(id: Ws.ConnId, events: seq<PlatformEvent>): seq<Sent> {
    seq(|events|, i requires 0 <= i < |events| => Sent(id, events[i]))
  }

  /** A start opens a new session; a step that takes an event finds it not yet retained. */
  function WorkerStep(s: System, b: Bus.Step, c: Config): System {
    var next := s.(bus := Bus.Next(s.bus, b, c.queueSize));
    match b
    case Start => if s.bus.running then s else next.(base := |s.stored|, retained := false)
    case Take => if s.bus.hand.Some? then s else next.(retained := false)
    case Done => if s.retained then next else s
    case Await => next
    case StopBegin => next
    case StopEnd => next
    case _ => s
  }

  function Addressed(ws: Ws.State, channel: string, e: PlatformEvent): (sent: set<Sent>)
    ensures forall x :: x in sent <==> x.event == e && x.id in Ws.MembersOf(ws.index, channel)
  {
    set id | id in Ws.MembersOf(ws.index, channel) :: Sent(id, e)
  }

  predicate MayRetain(s: System, names: seq<string>) {
    s.bus.running && s.bus.hand.Some? && !s.retained && Streams.Routed(Streams.Stored(s.bus.hand.value, names))
  }

  predicate MayBroadcast(s: System, channel: string) {
    s.bus.running && s.bus.hand.Some? && channel in ChannelsOf(s.bus.hand.value)
  }

  function Next(s: System, step: Step, c: Config): System {
    match step
    case Connect(id, p, route) =>
      var allowed := AllowedChannels(route, p);
      if allowed.None? || id in s.sessions then s
      else s.(sessions := s.sessions[id := Session(p, allowed.value)],
              ws := Ws.Next(s.ws, Ws.Check(id, p, allowed.value), c.limits))
    case Accept(id, at) => s.(ws := Ws.Next(s.ws, Ws.Accept(id, at), c.limits))
    case Abort(id) => s.(ws := Ws.Next(s.ws, Ws.Abort(id), c.limits))
    case Close(id) => s.(ws := Ws.Next(s.ws, Ws.Close(id), c.limits))
    case Activity(id, at) => s.(ws := Ws.Next(s.ws, Ws.Activity(id, at), c.limits))
    case SubscribeRequest(id, channel, at) =>
      if id in s.sessions && channel in s.sessions[id].allowed
      then s.(ws := Ws.Next(s.ws, Ws.Sub(id, channel, at), c.limits)) else s
    case UnsubscribeRequest(id, channel, at) => s.(ws := Ws.Next(s.ws, Ws.Unsub(id, channel, at), c.limits))
    case HistoryRequest(id, channel, limit) => s.(log := s.log + SendAll(id, HistoryFor(s, c, id, channel, limit)))
    case StopManager => s.(ws := Ws.Next(s.ws, Ws.StopAll, c.limits))
    case Publish(p, eventId) => s.(bus := Bus.Next(s.bus, Bus.Publish(EventOf(p, eventId)), c.queueSize))
    case Worker(b) => WorkerStep(s, b, c)
    case Retain(names) =>
      if MayRetain(s, names) then
        s.(stored := s.stored + [Streams.Stored(s.bus.hand.value, names)], retained := true)
      else s
    case Broadcast(channel) =>
      if MayBroadcast(s, channel) then s.(sends := s.sends + Addressed(s.ws, channel, s.bus.hand.value)) else s
    case Deliver(sent) => if sent in s.sends then s.(log := s.log + [sent]) else s
  }

  function Run(steps: seq<Step>, c: Config): System {
    if steps == [] then BOOT else Next(Run(steps[..|steps| - 1], c), steps[|steps| - 1], c)
  }

  /** Once the manager is stopped a broadcast addresses nobody. */
  lemma StoppedManagerAddressesNobody(s: System, channel: string, c: Config)
    ensures var t := Next(s, StopManager, c);
            t.ws.index == Ws.EMPTY && Next(t, Broadcast(channel), c).sends == t.sends
  {
  }

  // ----- soundness -----

  ghost predicate Within(sessions: map<Ws.ConnId, Session>, x: Sent) {
    && x.id in sessions
    && (!sessions[x.id].principal.superAdmin ==>
          x.event.organizationId == Some(sessions[x.id].principal.organizationId))
  }

  /** Everything the principal may listen to is one of its own organization's channels. */
  ghost predicate OwnChannelsOnly(session: Session) {
    !session.principal.superAdmin ==>
      forall ch :: ch in session.allowed ==> IsOrgChannel(ch, session.principal.organizationId)
  }

  lemma RoutesAllowOwnChannelsOnly(r: Route, p: Ws.Principal)
    requires AllowedChannels(r, p).Some?
    ensures OwnChannelsOnly(Session(p, AllowedChannels(r, p).value))
  {
  }

  ghost predicate SessionsCoverConnections(sessions: map<Ws.ConnId, Session>, ws: Ws.State) {
    && (forall id :: id in ws.index.connections ==>
          && id in sessions && ws.index.connections[id].principal == sessions[id].principal
          && forall ch :: ch in ws.index.connections[id].subscriptions ==> ch in sessions[id].allowed)
    && (forall id :: id in ws.pending ==>
          && id in sessions && ws.pending[id].principal == sessions[id].principal
          && ws.pending[id].channels == sessions[id].allowed)
  }

  ghost predicate BusRoutesSoundly(b: Bus.Bus) {
    && (forall e :: e in b.queue ==> RoutedToOwnOrg(e))
    && (b.hand.Some? ==> RoutedToOwnOrg(b.hand.value))
  }

  ghost predicate Sound(s: System, c: Config) {
    && Ws.Consistent(s.ws.index, c.limits)
    && SessionsCoverConnections(s.sessions, s.ws)
    && (forall id :: id in s.sessions ==> OwnChannelsOnly(s.sessions[id]))
    && BusRoutesSoundly(s.bus)
    && (forall x :: x in s.stored ==> Streams.Routed(x) && RoutedToOwnOrg(x.event))
    && (forall x :: x in s.sends ==> Within(s.sessions, x))
    && (forall x :: x in s.log ==> Within(s.sessions, x))
  }

  /** A session may be sent any event that is routed to a channel it may use. */
  lemma AllowedMeansWithin(sessions: map<Ws.ConnId, Session>, id: Ws.ConnId, channel: string, e: PlatformEvent)
    requires id in sessions && OwnChannelsOnly(sessions[id]) && channel in sessions[id].allowed
    requires RoutedToOwnOrg(e) && channel in ChannelsOf(e)
    ensures Within(sessions, Sent(id, e))
  {
  }

  lemma ConnectKeepsCover(sessions: map<Ws.ConnId, Session>, ws: Ws.State, id: Ws.ConnId, session: Session, c: Config)
    requires SessionsCoverConnections(sessions, ws) && id !in sessions
    ensures SessionsCoverConnections(sessions[id := session],
                                     Ws.Next(ws, Ws.Check(id, session.principal, session.allowed), c.limits))
  {
  }

  lemma WithinGrows(sessions: map<Ws.ConnId, Session>, id: Ws.ConnId, session: Session, x: Sent)
    requires Within(sessions, x) && id !in sessions
    ensures Within(sessions[id := session], x)
  {
  }

  lemma ConnectKeepsSound(s: System, id: Ws.ConnId, p: Ws.Principal, route: Route, c: Config)
    requires Sound(s, c)
    ensures Sound(Next(s, Connect(id, p, route), c), c)
  {
    var allowed := AllowedChannels(route, p);
    if allowed.Some? && id !in s.sessions {
      var session := Session(p, allowed.value);
      RoutesAllowOwnChannelsOnly(route, p);
      ConnectKeepsCover(s.sessions, s.ws, id, session, c);
      forall x | x in s.sends || x in s.log ensures Within(s.sessions[id := session], x) {
        WithinGrows(s.sessions, id, session, x);
      }
    }
  }

  lemma WsStepKeepsCover(s: System, w: Ws.Step, c: Config)
    requires Sound(s, c) && !w.Check?
    requires w.Sub? ==> w.id in s.sessions && w.channel in s.sessions[w.id].allowed
    ensures Sound(s.(ws := Ws.Next(s.ws, w, c.limits)), c)
  {
    var t := Ws.Next(s.ws, w, c.limits);
    Ws.NextKeepsConsistent(s.ws, w, c.limits);
    forall id | id in t.index.connections
      ensures id in s.sessions && t.index.connections[id].principal == s.sessions[id].principal
      ensures forall ch :: ch in t.index.connections[id].subscriptions ==> ch in s.sessions[id].allowed
    {
      Ws.ConnectionOrigin(s.ws, w, c.limits, id);
    }
  }

  lemma BusStepRoutesSoundly(b: Bus.Bus, step: Bus.Step, size: int)
    requires BusRoutesSoundly(b) && (step.Publish? ==> RoutedToOwnOrg(step.event))
    ensures BusRoutesSoundly(Bus.Next(b, step, size))
  {
    if step.Take? && b.queue != [] {
      assert b.queue == [b.queue[0]] + b.queue[1..];
    }
  }

  lemma BusStepKeepsSound(s: System, b: Bus.Step, c: Config)
    requires Sound(s, c)
    requires b.Publish? ==> RoutedToOwnOrg(b.event)
    ensures Sound(s.(bus := Bus.Next(s.bus, b, c.queueSize)), c)
  {
    BusStepRoutesSoundly(s.bus, b, c.queueSize);
  }

  lemma HistoryIsWithin(s: System, id: Ws.ConnId, channel: string, limit: Streams.LimitField, c: Config,
                        e: PlatformEvent)
    requires Sound(s, c) && e in HistoryFor(s, c, id, channel, limit)
    ensures Within(s.sessions, Sent(id, e))
  {
    Streams.RecentIsSuffixOfHistory(s.stored, c.retention, channel, Streams.ParseHistoryLimit(limit));
    var all := Streams.EventsOf(s.stored);
    assert e in Streams.RoutedTo(all, channel);
    var i :| 0 <= i < |all| && all[i] == e;
    assert s.stored[i] in s.stored;
    AllowedMeansWithin(s.sessions, id, channel, e);
  }

  lemma HistoryKeepsSound(s: System, id: Ws.ConnId, channel: string, limit: Streams.LimitField, c: Config)
    requires Sound(s, c)
    ensures Sound(Next(s, HistoryRequest(id, channel, limit), c), c)
  {
    var events := HistoryFor(s, c, id, channel, limit);
    forall i | 0 <= i < |events| ensures Within(s.sessions, Sent(id, events[i])) {
      HistoryIsWithin(s, id, channel, limit, c, events[i]);
    }
  }

  lemma AddressedIsWithin(s: System, channel: string, x: Sent, c: Config)
    requires Sound(s, c) && MayBroadcast(s, channel)
    requires x in Addressed(s.ws, channel, s.bus.hand.value)
    ensures Within(s.sessions, x)
  {
    assert channel in s.ws.index.connections[x.id].subscriptions;
    AllowedMeansWithin(s.sessions, x.id, channel, s.bus.hand.value);
  }

  lemma BroadcastKeepsSound(s: System, channel: string, c: Config)
    requires Sound(s, c)
    ensures Sound(Next(s, Broadcast(channel), c), c)
  {
    if MayBroadcast(s, channel) {
      forall x | x in Addressed(s.ws, channel, s.bus.hand.value) ensures Within(s.sessions, x) {
        AddressedIsWithin(s, channel, x, c);
      }
    }
  }

  lemma SubscribeKeepsSound(s: System, id: Ws.ConnId, channel: string, at: int, c: Config)
    requires Sound(s, c)
    ensures Sound(Next(s, SubscribeRequest(id, channel, at), c), c)
  {
    if id in s.sessions && channel in s.sessions[id].allowed {
      WsStepKeepsCover(s, Ws.Sub(id, channel, at), c);
    }
  }

  lemma PublishKeepsSound(s: System, p: Publication, eventId: nat, c: Config)
    requires Sound(s, c)
    ensures Sound(Next(s, Publish(p, eventId), c), c)
  {
    var e := EventOf(p, eventId);
    assert RoutedToOwnOrg(e) by {
      PublishersRouteSoundly(p, eventId);
    }
    BusStepKeepsSound(s, Bus.Publish(e), c);
  }

  lemma BookkeepingKeepsSound(s: System, base: nat, retained: bool, c: Config)
    requires Sound(s, c)
    ensures Sound(s.(base := base, retained := retained), c)
  {
  }

  lemma WorkerKeepsSound(s: System, b: Bus.Step, c: Config)
    requires Sound(s, c)
    ensures Sound(Next(s, Worker(b), c), c)
  {
    if !b.Publish? {
      var next := s.(bus := Bus.Next(s.bus, b, c.queueSize));
      BusStepKeepsSound(s, b, c);
      BookkeepingKeepsSound(next, |s.stored|, false, c);
      BookkeepingKeepsSound(next, s.base, false, c);
    }
  }

  lemma RetainKeepsSound(s: System, names: seq<string>, c: Config)
    requires Sound(s, c)
    ensures Sound(Next(s, Retain(names), c), c)
  {
    if MayRetain(s, names) {
      var x := Streams.Stored(s.bus.hand.value, names);
      assert forall y :: y in s.stored + [x] ==> y in s.stored || y == x;
    }
  }

  lemma DeliverKeepsSound(s: System, sent: Sent, c: Config)
    requires Sound(s, c)
    ensures Sound(Next(s, Deliver(sent), c), c)
  {
    assert forall x :: x in s.log + [sent] ==> x in s.log || x == sent;
  }

  lemma ManagerKeepsSound(s: System, step: Step, c: Config)
    requires Sound(s, c)
    requires step.Accept? || step.Abort? || step.Close? || step.Activity?
          || step.UnsubscribeRequest? || step.StopManager?
    ensures Sound(Next(s, step, c), c)
  {
    match step
    case Accept(id, at) => WsStepKeepsCover(s, Ws.Accept(id, at), c);
    case Abort(id) => WsStepKeepsCover(s, Ws.Abort(id), c);
    case Close(id) => WsStepKeepsCover(s, Ws.Close(id), c);
    case Activity(id, at) => WsStepKeepsCover(s, Ws.Activity(id, at), c);
    case UnsubscribeRequest(id, channel, at) => WsStepKeepsCover(s, Ws.Unsub(id, channel, at), c);
    case StopManager => WsStepKeepsCover(s, Ws.StopAll, c);
  }

  lemma NextKeepsSound(s: System, step: Step, c: Config)
    requires Sound(s, c)
    ensures Sound(Next(s, step, c), c)
  {
    match step
    case Connect(id, p, route) => ConnectKeepsSound(s, id, p, route, c);
    case SubscribeRequest(id, channel, at) => SubscribeKeepsSound(s, id, channel, at, c);
    case HistoryRequest(id, channel, limit) => HistoryKeepsSound(s, id, channel, limit, c);
    case Publish(p, eventId) => PublishKeepsSound(s, p, eventId, c);
    case Worker(b) => WorkerKeepsSound(s, b, c);
    case Retain(names) => RetainKeepsSound(s, names, c);
    case Broadcast(channel) => BroadcastKeepsSound(s, channel, c);
    case Deliver(sent) => DeliverKeepsSound(s, sent, c);
    case _ => ManagerKeepsSound(s, step, c);
  }

  lemma {:induction false} RunIsSound(steps: seq<Step>, c: Config)
    ensures Sound(Run(steps, c), c)
  {
    if steps != [] {
      var front := steps[..|steps| - 1];
      RunIsSound(front, c);
      NextKeepsSound(Run(front, c), steps[|steps| - 1], c);
    }
  }

  /**
   * In every run, whatever is put on the socket of a connection whose principal is not a super
   * admin, live or as history, is an event of the principal's own organization.
   */
  lemma NoCrossTenantDelivery(steps: seq<Step>, c: Config, sent: Sent)
    requires sent in Run(steps, c).log
    ensures var sessions := Run(steps, c).sessions;
            && sent.id in sessions
            && (sessions[sent.id].principal.superAdmin
                || sent.event.organizationId == Some(sessions[sent.id].principal.organizationId))
  {
    RunIsSound(steps, c);
  }

  /**
   * The other direction: a broadcast addresses every live connection that is subscribed to the
   * channel at that moment, and nobody else.
   */
  lemma BroadcastAddressesSubscribers(steps: seq<Step>, c: Config, channel: string, id: Ws.ConnId)
    requires MayBroadcast(Run(steps, c), channel)
    ensures var s := Run(steps, c);
            var x := Sent(id, s.bus.hand.value);
            x in Next(s, Broadcast(channel), c).sends <==>
            x in s.sends || (id in s.ws.index.connections && channel in s.ws.index.connections[id].subscriptions)
  {
    var s := Run(steps, c);
    assert Ws.Consistent(s.ws.index, c.limits) by {
      RunIsSound(steps, c);
    }
    Ws.MembersAreSubscribers(s.ws.index, c.limits, channel, id);
    assert Next(s, Broadcast(channel), c).sends == s.sends + Addressed(s.ws, channel, s.bus.hand.value);
  }

  // ----- retention follows the bus -----

  lemma {:induction false} WildcardSelectsAll(es: seq<PlatformEvent>)
    ensures Bus.Selected(es, None) == es
  {
    if es != [] {
      WildcardSelectsAll(es[..|es| - 1]);
      assert es == es[..|es| - 1] + [es[|es| - 1]];
    }
  }

  /** What retention should have stored since the bus last started. */
  function Retained(s: System): seq<PlatformEvent> {
    s.bus.dispatched + if s.retained then Bus.InHand(s.bus) else []
  }

  ghost predicate Linked(s: System) {
    s.base <= |s.stored| && Streams.EventsOf(s.stored[s.base..]) == Retained(s)
  }

  lemma RetainKeepsLinked(s: System, names: seq<string>, c: Config)
    requires Linked(s)
    ensures Linked(Next(s, Retain(names), c))
  {
    if MayRetain(s, names) {
      var x := Streams.Stored(s.bus.hand.value, names);
      assert (s.stored + [x])[s.base..] == s.stored[s.base..] + [x];
      Streams.EventsOfPush(s.stored[s.base..] + [x]);
      assert (s.stored[s.base..] + [x])[..|s.stored[s.base..]|] == s.stored[s.base..];
      assert s.bus.dispatched + [] == s.bus.dispatched;
    }
  }

  lemma WorkerKeepsLinked(s: System, b: Bus.Step, c: Config)
    requires Linked(s)
    ensures Linked(WorkerStep(s, b, c))
  {
    var t := WorkerStep(s, b, c);
    if b.Start? && !s.bus.running {
      assert t.stored[t.base..] == [];
    } else {
      assert t.stored == s.stored && t.base == s.base;
      assert Retained(t) == Retained(s);
    }
  }

  lemma OtherStepsLeaveTheBus(s: System, step: Step, c: Config)
    requires !step.Worker? && !step.Publish? && !step.Retain?
    ensures var t := Next(s, step, c);
            t.bus == s.bus && t.stored == s.stored && t.base == s.base && t.retained == s.retained
  {
  }

  lemma NextKeepsLinked(s: System, step: Step, c: Config)
    requires Linked(s)
    ensures Linked(Next(s, step, c))
  {
    match step
    case Worker(b) => WorkerKeepsLinked(s, b, c);
    case Retain(names) => RetainKeepsLinked(s, names, c);
    case Publish(p, eventId) => assert Retained(Next(s, step, c)) == Retained(s);
    case _ => OtherStepsLeaveTheBus(s, step, c);
  }

  /** The bus keeps its accounts, and the retention subscriber has been called for every event. */
  ghost predicate Tracked(b: Bus.Bus, c: Config) {
    Bus.Conserved(b, c.queueSize) && Bus.SeesEverything(b, None, RETENTION)
  }

  lemma BusStepTracks(b: Bus.Bus, step: Bus.Step, c: Config)
    requires Tracked(b, c) && step != Bus.Unregister(None, RETENTION)
    ensures Tracked(Bus.Next(b, step, c.queueSize), c)
  {
    Bus.NextConserves(b, step, c.queueSize);
    Bus.StepSeesEverything(b, step, c.queueSize, None, RETENTION);
  }

  lemma WorkerTracks(s: System, b: Bus.Step, c: Config)
    requires Tracked(s.bus, c)
    ensures Tracked(WorkerStep(s, b, c).bus, c)
  {
    var t := WorkerStep(s, b, c);
    assert t.bus == s.bus || (!b.Unregister? && t.bus == Bus.Next(s.bus, b, c.queueSize));
    if t.bus != s.bus {
      BusStepTracks(s.bus, b, c);
    }
  }

  lemma NextTracks(s: System, step: Step, c: Config)
    requires Tracked(s.bus, c)
    ensures Tracked(Next(s, step, c).bus, c)
  {
    match step
    case Worker(b) => WorkerTracks(s, b, c);
    case Publish(p, eventId) => BusStepTracks(s.bus, Bus.Publish(EventOf(p, eventId)), c);
    case Retain(names) =>
    case _ => OtherStepsLeaveTheBus(s, step, c);
  }

  lemma BootIsTracked(c: Config)
    ensures Tracked(BOOT.bus, c)
  {
    var rs := Bus.RegistrationsOf(BOOT.bus.subscribers, None);
    var broadcast := Bus.Registration(BROADCAST, 1);
    assert rs[1..] == [broadcast] && [broadcast][1..] == [];
    assert RETENTION[0] != BROADCAST[0];
    assert !Bus.Registered([broadcast], RETENTION) && Bus.NoDuplicates([broadcast]);
    assert Bus.NoDuplicates(rs) && Bus.Registered(rs, RETENTION);
    assert Bus.NamesUnique(BOOT.bus);
    assert Bus.Selected([] + [], None) == [];
  }

  lemma {:induction false} RunStaysLinked(steps: seq<Step>, c: Config)
    ensures Linked(Run(steps, c)) && Tracked(Run(steps, c).bus, c)
  {
    if steps == [] {
      BootIsTracked(c);
    } else {
      var front, step := steps[..|steps| - 1], steps[|steps| - 1];
      RunStaysLinked(front, c);
      NextKeepsLinked(Run(front, c), step, c);
      NextTracks(Run(front, c), step, c);
    }
  }

  /**
   * In every run, what retention has stored since the bus last started is what was dispatched,
   * plus the event in hand once it is retained; that is a prefix of what the bus accepted, and
   * each channel's stream is the last stored events routed to it. Nothing is skipped, repeated or
   * reordered on the way from `publish` to the stream.
   */
  lemma RetentionFollowsBus(steps: seq<Step>, c: Config, channel: string)
    ensures var s := Run(steps, c);
            && s.base <= |s.stored|
            && Streams.EventsOf(s.stored[s.base..]) == Retained(s)
            && Retained(s) <= Bus.Received(s.bus.deliveries, None, RETENTION) <= s.bus.accepted
            && Bus.Received(s.bus.deliveries, None, RETENTION) == s.bus.dispatched + Bus.InHand(s.bus)
            && Streams.StreamOf(Streams.Replay(s.stored, c.retention), channel)
               == LastN(Streams.RoutedTo(Streams.EventsOf(s.stored), channel), c.retention)
  {
    var s := Run(steps, c);
    RunStaysLinked(steps, c);
    RunIsSound(steps, c);
    WildcardSelectsAll(s.bus.dispatched + Bus.InHand(s.bus));
    Streams.RetentionRefinesHistory(s.stored, c.retention, channel);
  }
}
