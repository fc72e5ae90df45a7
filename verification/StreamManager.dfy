/** backend/app/events/stream_manager.py, backend/app/events/subscribers.py and the history request */
module StreamManager {
  import opened Common
  import opened Channels

  datatype Streams = Streams(global: seq<PlatformEvent>, channels: map<string, seq<PlatformEvent>>)

  const NO_STREAMS := Streams([], map[])

  /** Appending to a deque of bounded length drops from the other end. */
  function Push(d: seq<PlatformEvent>, e: PlatformEvent, retention: nat): seq<PlatformEvent> {
    LastN(d + [e], retention)
  }

  function StreamOf(s: Streams, channel: string): seq<PlatformEvent> {
    if channel in s.channels then s.channels[channel] else []
  }

  function PushAll(channels: map<string, seq<PlatformEvent>>, e: PlatformEvent, names: seq<string>, retention: nat)
    : map<string, seq<PlatformEvent>>
    decreases |names|
  {
    if names == [] then channels
    else
      var d := if names[0] in channels then channels[names[0]] else [];
      PushAll(channels[names[0] := Push(d, e, retention)], e, names[1..], retention)
  }

  function Append(s: Streams, e: PlatformEvent, names: seq<string>, retention: nat): Streams {
    Streams(Push(s.global, e, retention), PushAll(s.channels, e, names, retention))
  }

  class EventStreamManager {
    const retention: nat
    var globalStream: seq<PlatformEvent>
    var channelStreams: map<string, seq<PlatformEvent>>

    function State(): Streams
      reads this
    {
      Streams(globalStream, channelStreams)
    }

    constructor (retention: nat)
      ensures State() == NO_STREAMS && this.retention == retention
    {
      this.retention := retention;
      globalStream, channelStreams := [], map[];
    }

    method AppendEvent(e: PlatformEvent, names: seq<string>)
      modifies this
      ensures State() == Append(old(State()), e, names, retention)
    {
      globalStream := LastN(globalStream + [e], retention);
      var i := 0;
      while i < |names|
        invariant 0 <= i <= |names|
        invariant globalStream == Push(old(globalStream), e, retention)
        invariant PushAll(channelStreams, e, names[i..], retention) == PushAll(old(channelStreams), e, names, retention)
      {
        assert names[i..][1..] == names[i + 1..];
        ghost var before := channelStreams;
        if names[i] !in channelStreams {
          channelStreams := channelStreams[names[i] := []];
        }
        channelStreams := channelStreams[names[i] := LastN(channelStreams[names[i]] + [e], retention)];
        assert channelStreams
            == before[names[i] := Push(if names[i] in before then before[names[i]] else [], e, retention)];
        i := i + 1;
      }
    }

    method RecentForChannel(channel: string, limit: int) returns (events: seq<PlatformEvent>)
      ensures events == Recent(State(), channel, limit)
    {
      var channelEvents := if channel in channelStreams then channelStreams[channel] else [];
      events := SliceFromEnd(channelEvents, limit);
    }
  }

  function Recent(s: Streams, channel: string, limit: int): seq<PlatformEvent> {
    SliceFromEnd(StreamOf(s, channel), limit)
  }

  // ----- the history request's limit -----

  /** The `limit` entry of a history message, as Python's `int` sees it. */
  datatype LimitField = Absent | NotANumber | Number(value: int)

  function ParseHistoryLimit(f: LimitField): (n: int)
    ensures 1 <= n <= 200
    ensures f.Number? ==> n == if f.value < 1 then 1 else if f.value > 200 then 200 else f.value
    ensures !f.Number? ==> n == 20
  {
    match f
    case Absent => 20
    case NotANumber => 20
    case Number(v) => Clamp(1, 200, v)
  }

  // ----- retention refines the full history -----

  /** A dispatched event and the channel list it was stored under. */
  datatype Stored = Stored(event: PlatformEvent, names: seq<string>)

  /** The list enumerates the event's channels, each once, in some order. */
  predicate Routed(x: Stored) {
    && (forall c :: c in x.names ==> c in ChannelsOf(x.event))
    && (forall c :: c in ChannelsOf(x.event) ==> c in x.names)
    && (forall i, j :: 0 <= i < j < |x.names| ==> x.names[i] != x.names[j])
  }

  function Replay(history: seq<Stored>, retention: nat): Streams {
    if history == [] then NO_STREAMS
    else
      var last := history[|history| - 1];
      Append(Replay(history[..|history| - 1], retention), last.event, last.names, retention)
  }

  function EventsOf(history: seq<Stored>): seq<PlatformEvent> {
    seq(|history|, i requires 0 <= i < |history| => history[i].event)
  }

  /** The events of a history that are routed to a channel. */
  function RoutedTo(events: seq<PlatformEvent>, channel: string): (r: seq<PlatformEvent>)
    ensures forall e :: e in r ==> e in events && channel in ChannelsOf(e)
  {
    if events == [] then []
    else
      var last := events[|events| - 1];
      RoutedTo(events[..|events| - 1], channel) + if channel in ChannelsOf(last) then [last] else []
  }

  lemma {:induction false} PushAllOnce(channels: map<string, seq<PlatformEvent>>, e: PlatformEvent, names: seq<string>,
                                       retention: nat, c: string)
    requires forall i, j :: 0 <= i < j < |names| ==> names[i] != names[j]
    ensures var after := PushAll(channels, e, names, retention);
            && (c in after <==> c in channels || c in names)
            && (c in after ==>
                  after[c] ==
                  if c in names then Push(if c in channels then channels[c] else [], e, retention) else channels[c])
    decreases |names|
  {
    if names != [] {
      var d := if names[0] in channels then channels[names[0]] else [];
      PushAllOnce(channels[names[0] := Push(d, e, retention)], e, names[1..], retention, c);
      assert names == [names[0]] + names[1..];
      if c == names[0] {
        assert c !in names[1..];
      }
    }
  }

  lemma LastNOfPush(s: seq<PlatformEvent>, e: PlatformEvent, n: nat)
    ensures Push(LastN(s, n), e, n) == LastN(s + [e], n)
  {
  }

  lemma EventsOfPush(history: seq<Stored>)
    requires history != []
    ensures EventsOf(history) == EventsOf(history[..|history| - 1]) + [history[|history| - 1].event]
  {
  }

  lemma RoutedToPush(events: seq<PlatformEvent>, e: PlatformEvent, channel: string)
    ensures RoutedTo(events + [e], channel)
         == if channel in ChannelsOf(e) then RoutedTo(events, channel) + [e] else RoutedTo(events, channel)
  {
    assert (events + [e])[..|events|] == events;
  }

  /** Storing one event pushes it onto the streams of its channels and no other. */
  lemma AppendReachesItsChannels(s: Streams, x: Stored, retention: nat, channel: string)
    requires Routed(x)
    ensures var after := StreamOf(Append(s, x.event, x.names, retention), channel);
            after == if channel in ChannelsOf(x.event) then Push(StreamOf(s, channel), x.event, retention)
                     else StreamOf(s, channel)
  {
    PushAllOnce(s.channels, x.event, x.names, retention, channel);
  }

  /** A channel's stream is the last `retention` events of the full history that were routed to it. */
  lemma {:induction false} RetentionRefinesHistory(history: seq<Stored>, retention: nat, channel: string)
    requires forall x :: x in history ==> Routed(x)
    ensures StreamOf(Replay(history, retention), channel) == LastN(RoutedTo(EventsOf(history), channel), retention)
  {
    if history != [] {
      var front, last := history[..|history| - 1], history[|history| - 1];
      var events := EventsOf(front);
      RetentionRefinesHistory(front, retention, channel);
      EventsOfPush(history);
      RoutedToPush(events, last.event, channel);
      AppendReachesItsChannels(Replay(front, retention), last, retention, channel);
      LastNOfPush(RoutedTo(events, channel), last.event, retention);
    }
  }

  /** The global stream is the last `retention` events of the full history. */
  lemma {:induction false} GlobalStreamRefinesHistory(history: seq<Stored>, retention: nat)
    ensures Replay(history, retention).global == LastN(EventsOf(history), retention)
  {
    if history != [] {
      var front := history[..|history| - 1];
      GlobalStreamRefinesHistory(front, retention);
      EventsOfPush(history);
      LastNOfPush(EventsOf(front), history[|front|].event, retention);
    }
  }

  lemma SliceOfLastN(s: seq<PlatformEvent>, n: nat, limit: nat)
    requires limit >= 1
    ensures SliceFromEnd(LastN(s, n), limit) == LastN(s, Min(limit, n))
  {
  }

  /** A history request gets the last min(limit, retention) routed events, in order. */
  lemma RecentIsSuffixOfHistory(history: seq<Stored>, retention: nat, channel: string, limit: int)
    requires forall x :: x in history ==> Routed(x)
    requires limit >= 1
    ensures Recent(Replay(history, retention), channel, limit)
         == LastN(RoutedTo(EventsOf(history), channel), Min(limit, retention))
  {
    RetentionRefinesHistory(history, retention, channel);
    SliceOfLastN(RoutedTo(EventsOf(history), channel), retention, limit);
  }
}
