/** backend/app/ws/manager.py: connections, channel index and connection limits. */
module WsManager {
  import opened Common
  import opened Channels

  type ConnId = nat

  datatype Principal = Principal(organizationId: OrgId, superAdmin: bool)

  datatype Connection = Connection(principal: Principal, subscriptions: set<string>, lastActivityAt: int)

  datatype Limits = Limits(maxGlobal: int, maxPerOrg: int, maxSubscriptions: nat)

  /** The two dictionaries the manager keeps in step. */
  datatype Index = Index(connections: map<ConnId, Connection>, members: map<string, set<ConnId>>)

  const EMPTY := Index(map[], map[])

  function MembersOf(x: Index, channel: string): set<ConnId> {
    if channel in x.members then x.members[channel] else {}
  }

  function OrgConnections(cs: map<ConnId, Connection>, org: OrgId): set<ConnId> {
    set id | id in cs && cs[id].principal.organizationId == org
  }

  /** The member sets are exactly the inverse of the live connections' subscriptions. */
  ghost predicate Consistent(x: Index, limits: Limits) {
    && (forall channel, id ::
          channel in x.members && id in x.members[channel] <==>
          id in x.connections && channel in x.connections[id].subscriptions)
    && (forall channel :: channel in x.members ==> x.members[channel] != {})
    && (forall id :: id in x.connections ==> |x.connections[id].subscriptions| <= limits.maxSubscriptions)
  }

  lemma MembersAreSubscribers(x: Index, limits: Limits, channel: string, id: ConnId)
    requires Consistent(x, limits)
    ensures id in MembersOf(x, channel) <==> id in x.connections && channel in x.connections[id].subscriptions
  {
  }

  // ----- the lock sections -----

  function Link(x: Index, id: ConnId, channel: string): Index {
    if id !in x.connections then x
    else
      var c := x.connections[id];
      Index(x.connections[id := c.(subscriptions := c.subscriptions + {channel})],
            x.members[channel := MembersOf(x, channel) + {id}])
  }

  function LinkAll(x: Index, id: ConnId, channels: seq<string>): Index
    decreases |channels|
  {
    if channels == [] then x else LinkAll(Link(x, id, channels[0]), id, channels[1..])
  }

  predicate MayConnect(x: Index, p: Principal, limits: Limits) {
    |x.connections| < limits.maxGlobal && |OrgConnections(x.connections, p.organizationId)| < limits.maxPerOrg
  }

  function Insert(x: Index, id: ConnId, p: Principal, channels: seq<string>, limits: Limits, now: int): Index {
    var start := x.(connections := x.connections[id := Connection(p, {}, now)]);
    LinkAll(start, id, FirstN(channels, limits.maxSubscriptions))
  }

  function Drop(x: Index, id: ConnId): Index {
    Index(x.connections - {id}, map ch | ch in x.members && x.members[ch] - {id} != {} :: x.members[ch] - {id})
  }

  function Touch(x: Index, id: ConnId, now: int): Index {
    if id in x.connections then x.(connections := x.connections[id := x.connections[id].(lastActivityAt := now)]) else x
  }

  predicate MaySubscribe(x: Index, id: ConnId, limits: Limits) {
    id in x.connections && |x.connections[id].subscriptions| < limits.maxSubscriptions
  }

  function Subscribe(x: Index, id: ConnId, channel: string, limits: Limits, now: int): Index {
    if MaySubscribe(x, id, limits) then Touch(Link(x, id, channel), id, now) else x
  }

  function Unlink(members: map<string, set<ConnId>>, channel: string, id: ConnId): map<string, set<ConnId>> {
    if channel in members && members[channel] != {} then
      if members[channel] == {id} then members - {channel} else members[channel := members[channel] - {id}]
    else members
  }

  function Unsubscribe(x: Index, id: ConnId, channel: string, now: int): Index {
    if id !in x.connections then x
    else
      var c := x.connections[id];
      Index(x.connections[id := c.(subscriptions := c.subscriptions - {channel}, lastActivityAt := now)],
            Unlink(x.members, channel, id))
  }

  class WebSocketManager {
    const limits: Limits
    var connections: map<ConnId, Connection>
    var channelMembers: map<string, set<ConnId>>

    function State(): Index
      reads this
    {
      Index(connections, channelMembers)
    }

    ghost predicate Valid()
      reads this
    {
      Consistent(State(), limits)
    }

    constructor (limits: Limits)
      ensures Valid() && State() == EMPTY && this.limits == limits
    {
      this.limits := limits;
      connections, channelMembers := map[], map[];
    }

    /** The first lock section of `connect`; the caller is suspended before the second one. */
    method ConnectCheck(p: Principal) returns (ok: bool)
      ensures ok <==> MayConnect(State(), p, limits)
    {
      if |connections| >= limits.maxGlobal {
        return false;
      }
      var orgConnections := OrgConnections(connections, p.organizationId);
      ok := |orgConnections| < limits.maxPerOrg;
    }

    method SubscribeLocked(id: ConnId, channel: string)
      modifies this
      ensures State() == Link(old(State()), id, channel)
    {
      if id !in connections {
        return;
      }
      var c := connections[id];
      connections := connections[id := c.(subscriptions := c.subscriptions + {channel})];
      if channel !in channelMembers {
        channelMembers := channelMembers[channel := {}];
      }
      channelMembers := channelMembers[channel := channelMembers[channel] + {id}];
    }

    /** The second lock section of `connect`. */
    method ConnectInsert(id: ConnId, p: Principal, initialChannels: seq<string>, now: int)
      requires Valid() && id !in connections
      modifies this
      ensures Valid() && State() == Insert(old(State()), id, p, initialChannels, limits, now)
    {
      InsertKeepsConsistent(State(), id, p, initialChannels, limits, now);
      connections := connections[id := Connection(p, {}, now)];
      var channels := FirstN(initialChannels, limits.maxSubscriptions);
      ghost var start := State();
      var i := 0;
      while i < |channels|
        invariant 0 <= i <= |channels|
        invariant LinkAll(State(), id, channels[i..]) == LinkAll(start, id, channels)
      {
        SubscribeLocked(id, channels[i]);
        assert channels[i..][1..] == channels[i + 1..];
        i := i + 1;
      }
    }

    method Disconnect(id: ConnId)
      requires Valid()
      modifies this
      ensures Valid() && State() == Drop(old(State()), id)
      ensures connections == old(connections) - {id}
    {
      DropKeepsConsistent(State(), id, limits);
      if id !in connections {
        AbsentDropIsIdentity(State(), id, limits);
        return;
      }
      var todo := connections[id].subscriptions;
      DropUnlinksAll(State(), id, limits);
      connections := connections - {id};
      while todo != {}
        invariant connections == old(connections) - {id}
        invariant NoneEmpty(channelMembers)
        invariant UnlinkAll(channelMembers, todo, id) == Drop(old(State()), id).members
        decreases |todo|
      {
        var ch :| ch in todo;
        UnlinkOne(channelMembers, todo, ch, id);
        channelMembers := Unlink(channelMembers, ch, id);
        todo := todo - {ch};
      }
      assert UnlinkAll(channelMembers, {}, id) == channelMembers;
    }

    method TouchConnection(id: ConnId, now: int)
      modifies this
      ensures State() == Touch(old(State()), id, now)
      ensures id in connections ==> connections[id].lastActivityAt == now
    {
      if id in connections {
        connections := connections[id := connections[id].(lastActivityAt := now)];
      }
    }

    method SubscribeTo(id: ConnId, channel: string, now: int) returns (ok: bool)
      requires Valid()
      modifies this
      ensures Valid() && State() == Subscribe(old(State()), id, channel, limits, now)
      ensures ok <==> id in old(connections) && |old(connections)[id].subscriptions| < limits.maxSubscriptions
      ensures ok ==> var c := old(connections)[id];
                     connections == old(connections)[id := Connection(c.principal, c.subscriptions + {channel}, now)]
      ensures !ok ==> State() == old(State())
    {
      SubscribeKeepsConsistent(State(), id, channel, limits, now);
      if id !in connections {
        return false;
      }
      if |connections[id].subscriptions| >= limits.maxSubscriptions {
        return false;
      }
      SubscribeLocked(id, channel);
      TouchConnection(id, now);
      return true;
    }

    method UnsubscribeFrom(id: ConnId, channel: string, now: int)
      requires Valid()
      modifies this
      ensures Valid() && State() == Unsubscribe(old(State()), id, channel, now)
      ensures id in old(connections) ==>
              var c := old(connections)[id];
              connections == old(connections)[id := Connection(c.principal, c.subscriptions - {channel}, now)]
      ensures id !in old(connections) ==> State() == old(State())
    {
      UnsubscribeKeepsConsistent(State(), id, channel, limits, now);
      if id !in connections {
        return;
      }
      var c := connections[id];
      connections := connections[id := c.(subscriptions := c.subscriptions - {channel}, lastActivityAt := now)];
      if channel in channelMembers && channelMembers[channel] != {} {
        var members := channelMembers[channel] - {id};
        channelMembers := channelMembers[channel := members];
        if members == {} {
          channelMembers := channelMembers - {channel};
        }
      }
    }

    /** The snapshot a broadcast sends to: exactly the live connections subscribed to the channel. */
    method BroadcastTargets(channel: string) returns (ids: set<ConnId>)
      requires Valid()
      ensures ids == set id | id in connections && channel in connections[id].subscriptions
    {
      var memberIds := if channel in channelMembers then channelMembers[channel] else {};
      ids := set id | id in memberIds && id in connections;
    }

    /** The cleanup's snapshot: the connections whose last activity is no later than the threshold. */
    method StaleConnections(threshold: int) returns (ids: set<ConnId>)
      ensures ids <= connections.Keys
      ensures forall id :: id in connections ==> (id in ids <==> connections[id].lastActivityAt <= threshold)
    {
      ids := set id | id in connections && connections[id].lastActivityAt <= threshold;
    }

    /** Uninterrupted, the cleanup drops exactly the connections of its snapshot. */
    method CleanupIdleConnections(threshold: int)
      requires Valid()
      modifies this
      ensures Valid()
      ensures connections == map id | id in old(connections) && old(connections)[id].lastActivityAt > threshold
                               :: old(connections)[id]
    {
      var stale := StaleConnections(threshold);
      var todo := stale;
      while todo != {}
        invariant Valid() && todo <= stale && connections == old(connections) - (stale - todo)
        decreases |todo|
      {
        var id :| id in todo;
        Disconnect(id);
        todo := todo - {id};
        assert connections == old(connections) - (stale - todo);
      }
      assert stale - todo == stale;
      assert connections == old(connections) - stale;
    }

    method Stop()
      modifies this
      ensures Valid() && State() == EMPTY
    {
      connections, channelMembers := map[], map[];
    }
  }

  ghost predicate NoneEmpty(members: map<string, set<ConnId>>) {
    forall ch :: ch in members ==> members[ch] != {}
  }

  /** `id` removed from the member sets of `channels`, emptied sets removed with it. */
  ghost function UnlinkAll(members: map<string, set<ConnId>>, channels: set<string>, id: ConnId)
    : map<string, set<ConnId>>
  {
    map ch | ch in members && (ch in channels ==> members[ch] != {id})
      :: if ch in channels then members[ch] - {id} else members[ch]
  }

  lemma UnlinkOne(members: map<string, set<ConnId>>, channels: set<string>, ch: string, id: ConnId)
    requires NoneEmpty(members) && ch in channels
    ensures NoneEmpty(Unlink(members, ch, id))
    ensures UnlinkAll(Unlink(members, ch, id), channels - {ch}, id) == UnlinkAll(members, channels, id)
  {
    var next := Unlink(members, ch, id);
    assert forall c :: c != ch ==> (c in next <==> c in members) && (c in next ==> next[c] == members[c]);
    assert ch in next ==> next[ch] == members[ch] - {id};
  }

  lemma DropUnlinksAll(x: Index, id: ConnId, limits: Limits)
    requires Consistent(x, limits) && id in x.connections
    ensures UnlinkAll(x.members, x.connections[id].subscriptions, id) == Drop(x, id).members
  {
    var subs := x.connections[id].subscriptions;
    forall ch | ch in x.members
      ensures (ch in subs ==> x.members[ch] != {id}) <==> x.members[ch] - {id} != {}
      ensures ch !in subs ==> x.members[ch] - {id} == x.members[ch]
    {
      assert ch in subs <==> id in x.members[ch];
    }
  }

  // ----- every lock section keeps the index consistent -----

  lemma LinkAt(x: Index, id: ConnId, channel: string, limits: Limits, ch: string, other: ConnId)
    requires Consistent(x, limits) && id in x.connections
    ensures var y := Link(x, id, channel);
            && (ch in y.members && other in y.members[ch] <==>
                other in y.connections && ch in y.connections[other].subscriptions)
            && (ch in y.members ==> y.members[ch] != {})
  {
    assert ch in x.members && other in x.members[ch] <==>
           other in x.connections && ch in x.connections[other].subscriptions;
    if ch == channel {
      assert id in Link(x, id, channel).members[ch];
    }
  }

  lemma LinkKeepsInverse(x: Index, id: ConnId, channel: string, limits: Limits)
    requires Consistent(x, limits)
    requires id in x.connections && |x.connections[id].subscriptions| < limits.maxSubscriptions
    ensures Consistent(Link(x, id, channel), limits)
  {
    var y := Link(x, id, channel);
    forall ch, other
      ensures ch in y.members && other in y.members[ch] <==>
              other in y.connections && ch in y.connections[other].subscriptions
      ensures ch in y.members ==> y.members[ch] != {}
    {
      LinkAt(x, id, channel, limits, ch, other);
    }
  }

  lemma {:induction false} LinkAllKeepsInverse(x: Index, id: ConnId, channels: seq<string>, limits: Limits)
    requires Consistent(x, limits)
    requires id in x.connections && |x.connections[id].subscriptions| + |channels| <= limits.maxSubscriptions
    ensures Consistent(LinkAll(x, id, channels), limits)
    decreases |channels|
  {
    if channels != [] {
      LinkKeepsInverse(x, id, channels[0], limits);
      LinkAllKeepsInverse(Link(x, id, channels[0]), id, channels[1..], limits);
    }
  }

  function AsSet(channels: seq<string>): set<string> {
    set ch | ch in channels
  }

  /** Linking changes nothing but the subscriptions of the one connection. */
  lemma {:induction false} LinkAllFrame(x: Index, id: ConnId, channels: seq<string>)
    requires id in x.connections
    ensures var c := x.connections[id];
            LinkAll(x, id, channels).connections
            == x.connections[id := c.(subscriptions := c.subscriptions + AsSet(channels))]
    decreases |channels|
  {
    if channels == [] {
      assert x.connections[id].subscriptions + AsSet(channels) == x.connections[id].subscriptions;
    } else {
      var next := Link(x, id, channels[0]);
      LinkAllFrame(next, id, channels[1..]);
      assert x.connections[id].subscriptions + AsSet(channels)
          == next.connections[id].subscriptions + AsSet(channels[1..]);
    }
  }

  lemma InsertFrame(x: Index, id: ConnId, p: Principal, channels: seq<string>, limits: Limits, now: int)
    ensures Insert(x, id, p, channels, limits, now).connections
         == x.connections[id := Connection(p, AsSet(FirstN(channels, limits.maxSubscriptions)), now)]
  {
    var start := x.(connections := x.connections[id := Connection(p, {}, now)]);
    var kept := FirstN(channels, limits.maxSubscriptions);
    LinkAllFrame(start, id, kept);
    assert start.connections[id].subscriptions + AsSet(kept) == AsSet(kept);
    var final := Connection(p, AsSet(kept), now);
    assert start.connections[id := final] == x.connections[id := final];
  }

  lemma InsertKeepsConsistent(x: Index, id: ConnId, p: Principal, channels: seq<string>, limits: Limits, now: int)
    requires Consistent(x, limits) && id !in x.connections
    ensures Consistent(Insert(x, id, p, channels, limits, now), limits)
  {
    var start := x.(connections := x.connections[id := Connection(p, {}, now)]);
    assert Consistent(start, limits);
    LinkAllKeepsInverse(start, id, FirstN(channels, limits.maxSubscriptions), limits);
  }

  lemma DropKeepsConsistent(x: Index, id: ConnId, limits: Limits)
    requires Consistent(x, limits)
    ensures Consistent(Drop(x, id), limits)
  {
  }

  lemma AbsentDropIsIdentity(x: Index, id: ConnId, limits: Limits)
    requires Consistent(x, limits) && id !in x.connections
    ensures Drop(x, id) == x
  {
    forall ch | ch in x.members ensures x.members[ch] - {id} == x.members[ch] {
      assert id !in x.members[ch];
    }
    assert x.connections - {id} == x.connections;
  }

  lemma TouchKeepsConsistent(x: Index, id: ConnId, limits: Limits, now: int)
    requires Consistent(x, limits)
    ensures Consistent(Touch(x, id, now), limits)
  {
  }

  lemma SubscribeKeepsConsistent(x: Index, id: ConnId, channel: string, limits: Limits, now: int)
    requires Consistent(x, limits)
    ensures Consistent(Subscribe(x, id, channel, limits, now), limits)
  {
    if MaySubscribe(x, id, limits) {
      LinkKeepsInverse(x, id, channel, limits);
      TouchKeepsConsistent(Link(x, id, channel), id, limits, now);
    }
  }

  lemma UnsubscribeKeepsConsistent(x: Index, id: ConnId, channel: string, limits: Limits, now: int)
    requires Consistent(x, limits)
    ensures Consistent(Unsubscribe(x, id, channel, now), limits)
  {
    if id in x.connections {
      var y := Unsubscribe(x, id, channel, now);
      assert y.connections[id].subscriptions <= x.connections[id].subscriptions;
      SubsetCardinality(y.connections[id].subscriptions, x.connections[id].subscriptions);
    }
  }

  lemma SubsetCardinality<T>(a: set<T>, b: set<T>)
    requires a <= b
    ensures |a| <= |b|
  {
    assert b == a + (b - a);
  }

  // ----- interleavings -----

  /** A connection that passed the check and is waiting for the handshake. */
  datatype Pending = Pending(principal: Principal, channels: seq<string>)

  datatype State = State(index: Index, pending: map<ConnId, Pending>)

  const STARTED := State(EMPTY, map[])

  /**
   * The atomic steps. A connect is a `Check` followed by an `Accept`, or by an `Abort` when the
   * handshake fails; idle cleanup, failed sends and client closes are `Close` steps.
   */
  datatype Step =
    | Check(id: ConnId, principal: Principal, channels: seq<string>)
    | Accept(id: ConnId, at: int)
    | Abort(id: ConnId)
    | Close(id: ConnId)
    | Activity(id: ConnId, at: int)
    | Sub(id: ConnId, channel: string, at: int)
    | Unsub(id: ConnId, channel: string, at: int)
    | StopAll

  predicate FreshId(s: State, id: ConnId) {
    id !in s.index.connections && id !in s.pending
  }

  function Next(s: State, step: Step, limits: Limits): State {
    match step
    case Check(id, p, channels) =>
      if FreshId(s, id) && MayConnect(s.index, p, limits)
      then s.(pending := s.pending[id := Pending(p, channels)]) else s
    case Accept(id, at) =>
      if id in s.pending && id !in s.index.connections then
        State(Insert(s.index, id, s.pending[id].principal, s.pending[id].channels, limits, at), s.pending - {id})
      else s
    case Abort(id) => s.(pending := s.pending - {id})
    case Close(id) => s.(index := Drop(s.index, id))
    case Activity(id, at) => s.(index := Touch(s.index, id, at))
    case Sub(id, channel, at) => s.(index := Subscribe(s.index, id, channel, limits, at))
    case Unsub(id, channel, at) => s.(index := Unsubscribe(s.index, id, channel, at))
    case StopAll => s.(index := EMPTY)
  }

  function Run(steps: seq<Step>, limits: Limits): State {
    if steps == [] then STARTED else Next(Run(steps[..|steps| - 1], limits), steps[|steps| - 1], limits)
  }

  /** A subscription by a live connection with room makes it a member of the channel, seen active at that time. */
  lemma SubscribingJoins(s: State, id: ConnId, channel: string, at: int, limits: Limits)
    requires Consistent(s.index, limits) && id in s.index.connections
    requires |s.index.connections[id].subscriptions| < limits.maxSubscriptions
    ensures var t := Next(s, Sub(id, channel, at), limits);
            && MembersOf(t.index, channel) == MembersOf(s.index, channel) + {id}
            && t.index.connections[id].lastActivityAt == at && t.pending == s.pending
            && forall ch :: ch != channel ==> MembersOf(t.index, ch) == MembersOf(s.index, ch)
  {
  }

  /** At the cap a subscription changes nothing. */
  lemma FullConnectionIsRefused(s: State, id: ConnId, channel: string, at: int, limits: Limits)
    requires id in s.index.connections ==> |s.index.connections[id].subscriptions| >= limits.maxSubscriptions
    ensures Next(s, Sub(id, channel, at), limits) == s
  {
  }

  /** An unsubscribing connection leaves that channel alone, and is seen active as well. */
  lemma UnsubscribingLeaves(s: State, id: ConnId, channel: string, at: int, limits: Limits)
    requires Consistent(s.index, limits) && id in s.index.connections
    ensures var t := Next(s, Unsub(id, channel, at), limits);
            && MembersOf(t.index, channel) == MembersOf(s.index, channel) - {id}
            && t.index.connections[id].lastActivityAt == at && t.pending == s.pending
            && forall ch :: ch != channel ==> MembersOf(t.index, ch) == MembersOf(s.index, ch)
  {
  }

  /** Activity changes the time of that connection and nothing else. */
  lemma ActivityIsSeen(s: State, id: ConnId, at: int, limits: Limits)
    requires id in s.index.connections
    ensures var t := Next(s, Activity(id, at), limits);
            && t.index.connections[id].lastActivityAt == at && t.index.members == s.index.members
            && t.index.connections[id].subscriptions == s.index.connections[id].subscriptions
            && t.index.connections - {id} == s.index.connections - {id} && t.pending == s.pending
  {
  }

  /** Stopping drops every connection; a connect that waits for its handshake is still there. */
  lemma StoppingDropsAll(s: State, limits: Limits)
    ensures var t := Next(s, StopAll, limits);
            t.index.connections == map[] && t.pending == s.pending && forall ch :: MembersOf(t.index, ch) == {}
  {
  }

  /** A failed handshake leaves nothing behind. */
  lemma AbortForgets(s: State, id: ConnId, limits: Limits)
    ensures var t := Next(s, Abort(id), limits);
            && id !in t.pending && t.index == s.index
            && forall other :: other != id && other in s.pending ==>
                 other in t.pending && t.pending[other] == s.pending[other]
  {
  }

  lemma NextKeepsConsistent(s: State, step: Step, limits: Limits)
    requires Consistent(s.index, limits)
    ensures Consistent(Next(s, step, limits).index, limits)
  {
    match step
    case Check(id, p, channels) =>
    case Accept(id, at) =>
      if id in s.pending && id !in s.index.connections {
        InsertKeepsConsistent(s.index, id, s.pending[id].principal, s.pending[id].channels, limits, at);
      }
    case Abort(id) =>
    case Close(id) => DropKeepsConsistent(s.index, id, limits);
    case Activity(id, at) => TouchKeepsConsistent(s.index, id, limits, at);
    case Sub(id, channel, at) => SubscribeKeepsConsistent(s.index, id, channel, limits, at);
    case Unsub(id, channel, at) => UnsubscribeKeepsConsistent(s.index, id, channel, limits, at);
    case StopAll =>
  }

  /**
   * In every interleaving of connects, disconnects, subscribes, unsubscribes, idle cleanups and
   * stops, the member sets are the exact inverse of the live connections' subscriptions, none of
   * them is empty, and no connection exceeds its subscription cap.
   */
  lemma {:induction false} IndexIsAlwaysConsistent(steps: seq<Step>, limits: Limits)
    ensures Consistent(Run(steps, limits).index, limits)
  {
    if steps != [] {
      IndexIsAlwaysConsistent(steps[..|steps| - 1], limits);
      NextKeepsConsistent(Run(steps[..|steps| - 1], limits), steps[|steps| - 1], limits);
    }
  }

  /**
   * Where a live connection comes from: it was live before, with at most the channel just
   * subscribed to added, or it was pending and starts with the channels it was admitted with.
   */
  lemma ConnectionOrigin(s: State, step: Step, limits: Limits, id: ConnId)
    requires id in Next(s, step, limits).index.connections
    ensures var c := Next(s, step, limits).index.connections[id];
            || (id in s.index.connections && c.principal == s.index.connections[id].principal
                && forall ch :: ch in c.subscriptions ==>
                     ch in s.index.connections[id].subscriptions || (step.Sub? && step.id == id && step.channel == ch))
            || (step.Accept? && step.id == id && id in s.pending && c.principal == s.pending[id].principal
                && forall ch :: ch in c.subscriptions ==> ch in s.pending[id].channels)
  {
    if step.Accept? && step.id in s.pending && step.id !in s.index.connections {
      InsertFrame(s.index, step.id, s.pending[step.id].principal, s.pending[step.id].channels, limits, step.at);
    }
  }

  // ----- idle cleanup among other steps -----

  function RunFrom(s: State, steps: seq<Step>, limits: Limits): State {
    if steps == [] then s else Next(RunFrom(s, steps[..|steps| - 1], limits), steps[|steps| - 1], limits)
  }

  ghost predicate Gone(s: State, id: ConnId) {
    id !in s.index.connections && id !in s.pending
  }

  lemma GoneStaysGone(s: State, step: Step, limits: Limits, id: ConnId)
    requires Gone(s, id) && !(step.Check? && step.id == id)
    ensures Gone(Next(s, step, limits), id)
  {
    if id in Next(s, step, limits).index.connections {
      ConnectionOrigin(s, step, limits, id);
    }
  }

  lemma NotPendingStays(s: State, step: Step, limits: Limits, id: ConnId)
    requires id !in s.pending && !(step.Check? && step.id == id)
    ensures id !in Next(s, step, limits).pending
  {
  }

  lemma ConnectionStays(s: State, step: Step, limits: Limits, id: ConnId)
    requires id in s.index.connections && step != Close(id) && !step.StopAll?
    ensures id in Next(s, step, limits).index.connections
  {
    if step.Accept? && step.id in s.pending && step.id !in s.index.connections {
      InsertFrame(s.index, step.id, s.pending[step.id].principal, s.pending[step.id].channels, limits, step.at);
    }
  }

  /**
   * The cleanup takes its snapshot of idle connections in one lock section and closes each in one
   * of its own. Whatever happens in between, a connection of the snapshot whose close has come is
   * gone, also when it became active again after the snapshot; connection ids are never reused.
   */
  lemma {:induction false} CleanupClosesItsSnapshot(s: State, steps: seq<Step>, limits: Limits, id: ConnId)
    requires id in s.index.connections && id !in s.pending
    requires forall step :: step in steps && step.Check? ==> step.id != id
    ensures Close(id) in steps ==> Gone(RunFrom(s, steps, limits), id)
    ensures id !in RunFrom(s, steps, limits).pending
  {
    if steps != [] {
      var front, step := steps[..|steps| - 1], steps[|steps| - 1];
      assert steps == front + [step] && step in steps;
      CleanupClosesItsSnapshot(s, front, limits, id);
      var before := RunFrom(s, front, limits);
      NotPendingStays(before, step, limits, id);
      if Close(id) in front {
        GoneStaysGone(before, step, limits, id);
      }
    }
  }

  /** And no other connection is lost, as long as nobody else closes it and the manager runs on. */
  lemma {:induction false} CleanupSparesTheRest(s: State, steps: seq<Step>, limits: Limits, id: ConnId)
    requires id in s.index.connections && Close(id) !in steps && StopAll !in steps
    ensures id in RunFrom(s, steps, limits).index.connections
  {
    if steps != [] {
      var front, step := steps[..|steps| - 1], steps[|steps| - 1];
      assert step in steps;
      CleanupSparesTheRest(s, front, limits, id);
      ConnectionStays(RunFrom(s, front, limits), step, limits, id);
    }
  }

  // ----- connection caps -----

  function OrgPending(s: State, org: OrgId): set<ConnId> {
    set id | id in s.pending && s.pending[id].principal.organizationId == org
  }

  function Orgs(cs: map<ConnId, Connection>): map<ConnId, OrgId> {
    map id | id in cs :: cs[id].principal.organizationId
  }

  function PendingOrgs(ps: map<ConnId, Pending>): map<ConnId, OrgId> {
    map id | id in ps :: ps[id].principal.organizationId
  }

  /** What a step can do to the organizations of the live and of the pending connections. */
  ghost predicate OrgsEvolve(live: map<ConnId, OrgId>, pending: map<ConnId, OrgId>,
                             live': map<ConnId, OrgId>, pending': map<ConnId, OrgId>, id: ConnId)
  {
    || ((live' == live || live' == live - {id} || live' == map[])
        && (pending' == pending || pending' == pending - {id}))
    || (id in pending && live' == live[id := pending[id]] && pending' == pending - {id})
  }

  lemma ReplacingKeepsOrgs(cs: map<ConnId, Connection>, id: ConnId, c: Connection)
    requires id in cs && cs[id].principal == c.principal
    ensures Orgs(cs[id := c]) == Orgs(cs)
  {
  }

  lemma TouchKeepsOrgs(x: Index, id: ConnId, at: int)
    ensures Orgs(Touch(x, id, at).connections) == Orgs(x.connections)
  {
    if id in x.connections {
      ReplacingKeepsOrgs(x.connections, id, x.connections[id].(lastActivityAt := at));
    }
  }

  lemma SubscribeKeepsOrgs(x: Index, id: ConnId, channel: string, limits: Limits, at: int)
    ensures Orgs(Subscribe(x, id, channel, limits, at).connections) == Orgs(x.connections)
  {
    if MaySubscribe(x, id, limits) {
      var c := x.connections[id];
      ReplacingKeepsOrgs(x.connections, id, c.(subscriptions := c.subscriptions + {channel}));
      TouchKeepsOrgs(Link(x, id, channel), id, at);
    }
  }

  lemma UnsubscribeKeepsOrgs(x: Index, id: ConnId, channel: string, at: int)
    ensures Orgs(Unsubscribe(x, id, channel, at).connections) == Orgs(x.connections)
  {
    if id in x.connections {
      var c := x.connections[id];
      ReplacingKeepsOrgs(x.connections, id, c.(subscriptions := c.subscriptions - {channel}, lastActivityAt := at));
    }
  }

  lemma AcceptMoves(s: State, id: ConnId, at: int, limits: Limits)
    requires id in s.pending && id !in s.index.connections
    ensures var t := Next(s, Accept(id, at), limits);
            && Orgs(t.index.connections) == Orgs(s.index.connections)[id := s.pending[id].principal.organizationId]
            && PendingOrgs(t.pending) == PendingOrgs(s.pending) - {id}
  {
    InsertFrame(s.index, id, s.pending[id].principal, s.pending[id].channels, limits, at);
  }

  /** Every step but a check that found room only moves a pending connection or removes some. */
  lemma StepMovesOrRemoves(s: State, step: Step, limits: Limits) returns (id: ConnId)
    requires step.Check? ==> Next(s, step, limits) == s
    ensures OrgsEvolve(Orgs(s.index.connections), PendingOrgs(s.pending),
                       Orgs(Next(s, step, limits).index.connections), PendingOrgs(Next(s, step, limits).pending), id)
  {
    id := if step.StopAll? then 0 else step.id;
    match step
    case Check(_, p, channels) =>
    case Accept(_, at) =>
      if id in s.pending && id !in s.index.connections {
        AcceptMoves(s, id, at, limits);
      }
    case Abort(_) => assert PendingOrgs(s.pending - {id}) == PendingOrgs(s.pending) - {id};
    case Close(_) => assert Orgs(s.index.connections - {id}) == Orgs(s.index.connections) - {id};
    case Activity(_, at) => TouchKeepsOrgs(s.index, id, at);
    case Sub(_, channel, at) => SubscribeKeepsOrgs(s.index, id, channel, limits, at);
    case Unsub(_, channel, at) => UnsubscribeKeepsOrgs(s.index, id, channel, at);
    case StopAll => assert Orgs(EMPTY.connections) == map[];
  }

  function Of(m: map<ConnId, OrgId>, org: OrgId): set<ConnId> {
    set id | id in m && m[id] == org
  }

  lemma RemovingShrinks(m: map<ConnId, OrgId>, m': map<ConnId, OrgId>, id: ConnId, org: OrgId)
    requires m' == m || m' == m - {id} || m' == map[]
    ensures |m'| <= |m| && |Of(m', org)| <= |Of(m, org)|
  {
    MapSizeWithout(m, id);
    assert Of(m', org) <= Of(m, org);
    SubsetCardinality(Of(m', org), Of(m, org));
  }

  lemma AddingCounts(m: map<ConnId, OrgId>, id: ConnId, o: OrgId, org: OrgId)
    ensures |m[id := o]| <= |m| + 1
    ensures |Of(m[id := o], org)| <= |Of(m, org)| + if o == org then 1 else 0
  {
    var more := if o == org then Of(m, org) + {id} else Of(m, org);
    assert Of(m[id := o], org) <= more;
    SubsetCardinality(Of(m[id := o], org), more);
  }

  lemma MovingKeepsCount(live: map<ConnId, OrgId>, pending: map<ConnId, OrgId>, id: ConnId, org: OrgId)
    requires id in pending
    ensures |live[id := pending[id]]| + |pending - {id}| <= |live| + |pending|
    ensures |Of(live[id := pending[id]], org)| + |Of(pending - {id}, org)| <= |Of(live, org)| + |Of(pending, org)|
  {
    AddingCounts(live, id, pending[id], org);
    MapSizeWithout(pending, id);
    assert Of(pending - {id}, org) == Of(pending, org) - {id};
    assert id in Of(pending, org) <==> pending[id] == org;
  }

  /** Moving a pending connection, or removing connections, does not raise any count. */
  lemma EvolvingDoesNotGrow(live: map<ConnId, OrgId>, pending: map<ConnId, OrgId>,
                            live': map<ConnId, OrgId>, pending': map<ConnId, OrgId>, id: ConnId, org: OrgId)
    requires OrgsEvolve(live, pending, live', pending', id)
    ensures |live'| + |pending'| <= |live| + |pending|
    ensures |Of(live', org)| + |Of(pending', org)| <= |Of(live, org)| + |Of(pending, org)|
  {
    if id in pending && live' == live[id := pending[id]] && pending' == pending - {id} {
      MovingKeepsCount(live, pending, id, org);
    } else {
      RemovingShrinks(live, live', id, org);
      RemovingShrinks(pending, pending', id, org);
    }
  }

  lemma OrgCounts(s: State, org: OrgId)
    ensures |Orgs(s.index.connections)| == |s.index.connections| && |PendingOrgs(s.pending)| == |s.pending|
    ensures Of(Orgs(s.index.connections), org) == OrgConnections(s.index.connections, org)
    ensures Of(PendingOrgs(s.pending), org) == OrgPending(s, org)
  {
    assert Orgs(s.index.connections).Keys == s.index.connections.Keys;
    assert PendingOrgs(s.pending).Keys == s.pending.Keys;
    MapSize(Orgs(s.index.connections));
    MapSize(s.index.connections);
    MapSize(PendingOrgs(s.pending));
    MapSize(s.pending);
  }

  lemma MapSize<K, V>(m: map<K, V>)
    ensures |m| == |m.Keys|
  {
  }

  /** Live plus pending connections, in all and per organization, grow only by a check that found room. */
  lemma LoadGrowsOnlyByChecks(s: State, step: Step, limits: Limits, org: OrgId)
    ensures var t := Next(s, step, limits);
            || (step.Check? && t.index == s.index && MayConnect(s.index, step.principal, limits)
                && (step.principal.organizationId != org ==> OrgPending(t, org) == OrgPending(s, org)))
            || (|t.index.connections| + |t.pending| <= |s.index.connections| + |s.pending|
                && |OrgConnections(t.index.connections, org)| + |OrgPending(t, org)|
                   <= |OrgConnections(s.index.connections, org)| + |OrgPending(s, org)|)
  {
    var t := Next(s, step, limits);
    if !step.Check? || t == s {
      var id := StepMovesOrRemoves(s, step, limits);
      OrgCounts(s, org);
      OrgCounts(t, org);
      EvolvingDoesNotGrow(Orgs(s.index.connections), PendingOrgs(s.pending),
                          Orgs(t.index.connections), PendingOrgs(t.pending), id, org);
    }
  }

  lemma MapSizeWithout<K, V>(m: map<K, V>, k: K)
    ensures |m - {k}| == if k in m then |m| - 1 else |m|
  {
    assert (m - {k}).Keys == m.Keys - {k};
    assert |m.Keys| == |m| && |(m - {k}).Keys| == |m - {k}|;
  }

  /** At most `p` connects are ever between their check and their insert. */
  ghost predicate AtMostPending(steps: seq<Step>, limits: Limits, p: nat) {
    forall n :: 0 <= n <= |steps| ==> |Run(steps[..n], limits).pending| <= p
  }

  /** The same, counting one organization's connects only. */
  ghost predicate AtMostOrgPending(steps: seq<Step>, limits: Limits, org: OrgId, p: nat) {
    forall n :: 0 <= n <= |steps| ==> |OrgPending(Run(steps[..n], limits), org)| <= p
  }

  /** When at most `p` connects overlap, live and pending connections never exceed the limit by more than `p - 1`. */
  lemma {:induction false} GlobalCapHolds(steps: seq<Step>, limits: Limits, p: nat)
    requires AtMostPending(steps, limits, p)
    ensures var s := Run(steps, limits);
            |s.index.connections| + |s.pending| <= Max(0, limits.maxGlobal - 1 + p)
  {
    if steps != [] {
      var front := steps[..|steps| - 1];
      forall n | 0 <= n <= |front| ensures |Run(front[..n], limits).pending| <= p {
        assert front[..n] == steps[..n];
      }
      GlobalCapHolds(front, limits, p);
      LoadGrowsOnlyByChecks(Run(front, limits), steps[|steps| - 1], limits, "");
      assert steps[..|steps|] == steps;
    }
  }

  /** The same bound for each organization; the smaller of the two limits stops its connects. */
  lemma {:induction false} OrgCapHolds(steps: seq<Step>, limits: Limits, org: OrgId, p: nat)
    requires AtMostOrgPending(steps, limits, org, p)
    ensures var s := Run(steps, limits);
            |OrgConnections(s.index.connections, org)| + |OrgPending(s, org)|
            <= Max(0, Min(limits.maxGlobal, limits.maxPerOrg) - 1 + p)
  {
    if steps != [] {
      var front := steps[..|steps| - 1];
      forall n | 0 <= n <= |front| ensures |OrgPending(Run(front[..n], limits), org)| <= p {
        assert front[..n] == steps[..n];
      }
      OrgCapHolds(front, limits, org, p);
      var before := Run(front, limits);
      LoadGrowsOnlyByChecks(before, steps[|steps| - 1], limits, org);
      OrgIsPartOfAll(before.index.connections, org);
      assert steps[..|steps|] == steps;
    } else {
      assert OrgConnections(STARTED.index.connections, org) == {} && OrgPending(STARTED, org) == {};
    }
  }

  lemma OrgIsPartOfAll(cs: map<ConnId, Connection>, org: OrgId)
    ensures |OrgConnections(cs, org)| <= |cs|
  {
    SubsetCardinality(OrgConnections(cs, org), cs.Keys);
    MapSize(cs);
  }

  // ----- the overshoot is real -----

  /** The organization of the `i`th client: always the same one, or a new one for each. */
  function OrgAt(same: Option<OrgId>, i: nat): (org: OrgId)
    ensures same.None? ==> |org| == i
  {
    if same.Some? then same.value else seq(i, _ => 'o')
  }

  function Client(same: Option<OrgId>, i: nat): Principal {
    Principal(OrgAt(same, i), false)
  }

  /** The keys are the ids from `lo` up to but not including `hi`. */
  ghost predicate Covers<V>(m: map<ConnId, V>, lo: nat, hi: nat) {
    lo <= hi && forall id :: id in m <==> lo <= id < hi
  }

  lemma {:induction false} CoversCount<V>(m: map<ConnId, V>, lo: nat, hi: nat)
    requires Covers(m, lo, hi)
    ensures |m| == hi - lo
    decreases hi - lo
  {
    if lo == hi {
      assert m == map[];
    } else {
      MapSizeWithout(m, hi - 1);
      CoversCount(m - {hi - 1}, lo, hi - 1);
    }
  }

  /** Clients `0..a` are connected and clients `a..b` wait between check and insert. */
  ghost predicate Spans(s: State, same: Option<OrgId>, a: nat, b: nat) {
    && Covers(Orgs(s.index.connections), 0, a) && Covers(PendingOrgs(s.pending), a, b)
    && (forall id :: id in Orgs(s.index.connections) ==> Orgs(s.index.connections)[id] == OrgAt(same, id))
    && (forall id :: id in PendingOrgs(s.pending) ==> PendingOrgs(s.pending)[id] == OrgAt(same, id))
  }

  lemma SpansCounts(s: State, same: Option<OrgId>, a: nat, b: nat)
    requires Spans(s, same, a, b)
    ensures |s.index.connections| == a && |s.pending| == b - a
    ensures same.Some? ==> |OrgConnections(s.index.connections, same.value)| == a
    ensures same.None? ==> OrgConnections(s.index.connections, OrgAt(same, b)) == {}
  {
    var live := Orgs(s.index.connections);
    OrgCounts(s, OrgAt(same, b));
    CoversCount(live, 0, a);
    CoversCount(PendingOrgs(s.pending), a, b);
    if same.Some? {
      assert Of(live, same.value) == live.Keys;
      MapSize(live);
    }
  }

  /** The limits let one more client in while `a` are connected. */
  predicate HasRoom(limits: Limits, same: Option<OrgId>, a: nat) {
    a < limits.maxGlobal && (if same.Some? then a else 0) < limits.maxPerOrg
  }

  lemma RoomForTheNext(s: State, same: Option<OrgId>, a: nat, b: nat, limits: Limits)
    requires Spans(s, same, a, b) && HasRoom(limits, same, a)
    ensures MayConnect(s.index, Client(same, b), limits) && FreshId(s, b)
  {
    SpansCounts(s, same, a, b);
    assert b !in Orgs(s.index.connections) && b !in PendingOrgs(s.pending);
  }

  lemma CheckWaits(s: State, same: Option<OrgId>, a: nat, b: nat, limits: Limits)
    requires Spans(s, same, a, b) && HasRoom(limits, same, a)
    ensures Spans(Next(s, Check(b, Client(same, b), []), limits), same, a, b + 1)
  {
    RoomForTheNext(s, same, a, b, limits);
    var t := Next(s, Check(b, Client(same, b), []), limits);
    assert t == s.(pending := s.pending[b := Pending(Client(same, b), [])]);
    assert PendingOrgs(t.pending) == PendingOrgs(s.pending)[b := OrgAt(same, b)];
  }

  lemma AcceptConnects(s: State, same: Option<OrgId>, a: nat, b: nat, limits: Limits)
    requires Spans(s, same, a, b) && a < b
    ensures Spans(Next(s, Accept(a, 0), limits), same, a + 1, b)
  {
    assert a in PendingOrgs(s.pending) && a !in Orgs(s.index.connections);
    AcceptMoves(s, a, 0, limits);
  }

  lemma Extend(steps: seq<Step>, step: Step, limits: Limits, p: nat)
    requires AtMostPending(steps, limits, p)
    requires |Next(Run(steps, limits), step, limits).pending| <= p
    ensures AtMostPending(steps + [step], limits, p)
    ensures Run(steps + [step], limits) == Next(Run(steps, limits), step, limits)
  {
    var more := steps + [step];
    assert more[..|steps|] == steps;
    forall n | 0 <= n <= |more| ensures |Run(more[..n], limits).pending| <= p {
      assert n <= |steps| ==> more[..n] == steps[..n];
      assert n == |more| ==> more[..n] == more;
    }
  }

  lemma ExtendCheck(steps: seq<Step>, same: Option<OrgId>, a: nat, b: nat, limits: Limits, p: nat)
    returns (more: seq<Step>)
    requires AtMostPending(steps, limits, p) && Spans(Run(steps, limits), same, a, b)
    requires HasRoom(limits, same, a) && b + 1 - a <= p
    ensures AtMostPending(more, limits, p) && Spans(Run(more, limits), same, a, b + 1)
  {
    var step := Check(b, Client(same, b), []);
    CheckWaits(Run(steps, limits), same, a, b, limits);
    SpansCounts(Next(Run(steps, limits), step, limits), same, a, b + 1);
    Extend(steps, step, limits, p);
    more := steps + [step];
  }

  lemma ExtendAccept(steps: seq<Step>, same: Option<OrgId>, a: nat, b: nat, limits: Limits, p: nat)
    returns (more: seq<Step>)
    requires AtMostPending(steps, limits, p) && Spans(Run(steps, limits), same, a, b)
    requires a < b && b - a <= p
    ensures AtMostPending(more, limits, p) && Spans(Run(more, limits), same, a + 1, b)
  {
    AcceptConnects(Run(steps, limits), same, a, b, limits);
    SpansCounts(Next(Run(steps, limits), Accept(a, 0), limits), same, a + 1, b);
    Extend(steps, Accept(a, 0), limits, p);
    more := steps + [Accept(a, 0)];
  }

  /** Clients that connect one after the other fill every free place. */
  lemma {:induction false} FillRun(limits: Limits, same: Option<OrgId>, n: nat, p: nat) returns (steps: seq<Step>)
    requires p >= 1 && (n > 0 ==> HasRoom(limits, same, n - 1))
    ensures AtMostPending(steps, limits, p) && Spans(Run(steps, limits), same, n, n)
    decreases n
  {
    if n == 0 {
      steps := [];
    } else {
      steps := FillRun(limits, same, n - 1, p);
      steps := ExtendCheck(steps, same, n - 1, n - 1, limits, p);
      steps := ExtendAccept(steps, same, n - 1, n, limits, p);
    }
  }

  /** Clients that all check before any of them is inserted all get in. */
  lemma {:induction false} RushRun(limits: Limits, same: Option<OrgId>, n: nat, waiting: nat, p: nat)
    returns (steps: seq<Step>)
    requires 1 <= p && waiting <= p && HasRoom(limits, same, n)
    ensures AtMostPending(steps, limits, p) && Spans(Run(steps, limits), same, n, n + waiting)
    decreases waiting
  {
    if waiting == 0 {
      steps := FillRun(limits, same, n, p);
    } else {
      steps := RushRun(limits, same, n, waiting - 1, p);
      steps := ExtendCheck(steps, same, n, n + waiting - 1, limits, p);
    }
  }

  lemma {:induction false} AdmitRun(limits: Limits, same: Option<OrgId>, n: nat, admitted: nat, p: nat)
    returns (steps: seq<Step>)
    requires 1 <= p && admitted <= p && HasRoom(limits, same, n)
    ensures AtMostPending(steps, limits, p) && Spans(Run(steps, limits), same, n + admitted, n + p)
    decreases admitted
  {
    if admitted == 0 {
      steps := RushRun(limits, same, n, p, p);
    } else {
      steps := AdmitRun(limits, same, n, admitted - 1, p);
      steps := ExtendAccept(steps, same, n + admitted - 1, n + p, limits, p);
    }
  }

  /** The global bound is reached, by clients of different organizations. */
  lemma GlobalOvershootIsReached(limits: Limits, p: nat) returns (steps: seq<Step>)
    requires limits.maxGlobal >= 1 && limits.maxPerOrg >= 1 && p >= 1
    ensures AtMostPending(steps, limits, p)
    ensures |Run(steps, limits).index.connections| == limits.maxGlobal - 1 + p
  {
    steps := AdmitRun(limits, None, limits.maxGlobal - 1, p, p);
    SpansCounts(Run(steps, limits), None, limits.maxGlobal - 1 + p, limits.maxGlobal - 1 + p);
  }

  /** So is the bound of every organization, by clients of that organization alone. */
  lemma OrgOvershootIsReached(limits: Limits, org: OrgId, p: nat) returns (steps: seq<Step>)
    requires limits.maxGlobal >= 1 && limits.maxPerOrg >= 1 && p >= 1
    ensures AtMostOrgPending(steps, limits, org, p)
    ensures |OrgConnections(Run(steps, limits).index.connections, org)|
         == Min(limits.maxGlobal, limits.maxPerOrg) - 1 + p
  {
    var n := Min(limits.maxGlobal, limits.maxPerOrg) - 1;
    steps := AdmitRun(limits, Some(org), n, p, p);
    SpansCounts(Run(steps, limits), Some(org), n + p, n + p);
    forall k | 0 <= k <= |steps| ensures |OrgPending(Run(steps[..k], limits), org)| <= p {
      var s := Run(steps[..k], limits);
      SubsetCardinality(OrgPending(s, org), s.pending.Keys);
      MapSize(s.pending);
    }
  }

  /** The global limit is kept in every run exactly when connects never overlap. */
  lemma GlobalLimitKeptIffNoOverlap(limits: Limits, p: nat)
    requires limits.maxGlobal >= 1 && limits.maxPerOrg >= 1
    ensures (forall steps :: AtMostPending(steps, limits, p) ==>
               |Run(steps, limits).index.connections| <= limits.maxGlobal)
            <==> p <= 1
  {
    if p <= 1 {
      forall steps | AtMostPending(steps, limits, p)
        ensures |Run(steps, limits).index.connections| <= limits.maxGlobal
      {
        GlobalCapHolds(steps, limits, p);
      }
    } else {
      var steps := GlobalOvershootIsReached(limits, p);
      assert AtMostPending(steps, limits, p);
    }
  }

  /**
   * An organization's limit is kept in every run exactly when its overlapping connects fit above
   * the smaller limit; with a global limit no smaller than its own that again means no overlap.
   */
  lemma OrgLimitKeptIffNoOverlap(limits: Limits, org: OrgId, p: nat)
    requires limits.maxGlobal >= 1 && limits.maxPerOrg >= 1
    ensures (forall steps :: AtMostOrgPending(steps, limits, org, p) ==>
               |OrgConnections(Run(steps, limits).index.connections, org)| <= limits.maxPerOrg)
            <==> p <= 1 + Max(0, limits.maxPerOrg - limits.maxGlobal)
  {
    if p <= 1 + Max(0, limits.maxPerOrg - limits.maxGlobal) {
      forall steps | AtMostOrgPending(steps, limits, org, p)
        ensures |OrgConnections(Run(steps, limits).index.connections, org)| <= limits.maxPerOrg
      {
        OrgCapHolds(steps, limits, org, p);
      }
    } else {
      var steps := OrgOvershootIsReached(limits, org, p);
      assert AtMostOrgPending(steps, limits, org, p);
    }
  }
}
