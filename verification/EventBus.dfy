/** backend/app/events/event_bus.py */
module EventBus {
  import opened Common
  import opened Channels

  /** Registration under one event type, or under `None` for every type. */
  type Scope = Option<EventType>

  /** A subscription; the callback is an opaque identity. */
  datatype Registration = Registration(name: string, callback: nat)

  datatype Delivery = Delivery(scope: Scope, name: string, callback: nat, event: PlatformEvent)

  /**
   * `attached` says that the bus still holds the queue of the current session, `working` that the
   * session's worker has not died, `waiting` that it has turned to the queue for its next event,
   * and `stops` counts the calls of `stop` that wait for a worker.
   * `queue` is the session's queue, which a waiting worker keeps when the bus lets go of it, and
   * `hand` the event the worker is dispatching. The last five fields are the history of the
   * session: what was accepted, dispatched and delivered, and how much was offered and lost.
   */
  datatype Bus = Bus(
    running: bool,
    attached: bool,
    working: bool,
    waiting: bool,
    stops: nat,
    queue: seq<PlatformEvent>,
    hand: Option<PlatformEvent>,
    subscribers: map<Scope, seq<Registration>>,
    accepted: seq<PlatformEvent>,
    dispatched: seq<PlatformEvent>,
    deliveries: seq<Delivery>,
    published: nat,
    dropped: nat)

  const IDLE := Bus(false, false, false, false, 0, [], None, map[], [], [], [], 0, 0)

  datatype Step =
    | Start
    | Publish(event: PlatformEvent)
    | Await
    | Take
    | Done
    | StopBegin
    | StopEnd
    | Register(scope: Scope, registration: Registration)
    | Unregister(scope: Scope, name: string)

  /** A maximum size of zero or less means an unbounded queue. */
  predicate Full(queue: seq<PlatformEvent>, size: int) {
    size > 0 && |queue| >= size
  }

  function RegistrationsOf(subscribers: map<Scope, seq<Registration>>, scope: Scope): seq<Registration> {
    if scope in subscribers then subscribers[scope] else []
  }

  predicate Registered(rs: seq<Registration>, name: string) {
    rs != [] && (rs[0].name == name || Registered(rs[1..], name))
  }

  function DeliverTo(scope: Scope, rs: seq<Registration>, e: PlatformEvent): (ds: seq<Delivery>)
    ensures |ds| == |rs|
  {
    seq(|rs|, i requires 0 <= i < |rs| => Delivery(scope, rs[i].name, rs[i].callback, e))
  }

  /** One dispatch reaches the subscribers of the event's own type, then the wildcard ones. */
  function DeliveriesOf(b: Bus, e: PlatformEvent): seq<Delivery> {
    DeliverTo(Some(e.eventType), RegistrationsOf(b.subscribers, Some(e.eventType)), e)
    + DeliverTo(None, RegistrationsOf(b.subscribers, None), e)
  }

  /** Registering a known name replaces its callback and keeps its place. */
  function Put(rs: seq<Registration>, r: Registration): seq<Registration> {
    if rs == [] then [r]
    else if rs[0].name == r.name then [r] + rs[1..]
    else [rs[0]] + Put(rs[1..], r)
  }

  function Without(rs: seq<Registration>, name: string): seq<Registration> {
    if rs == [] then []
    else if rs[0].name == name then rs[1..]
    else [rs[0]] + Without(rs[1..], name)
  }

  /**
   * A `stop` that finds its worker dead fails at once instead of waiting; one that waits lets go
   * of whatever queue the bus holds when it resumes. A worker turns to the queue the bus holds and
   * polls when there is none; one that finishes a dispatch while the bus holds no queue dies, and
   * otherwise turns to the queue again at once.
   */
  function Next(b: Bus, step: Step, size: int): Bus {
    match step
    case Start =>
      if b.running then b else Bus(true, true, true, false, b.stops, [], None, b.subscribers, [], [], [], 0, 0)
    case Publish(e) =>
      if !b.running || !b.attached || Full(b.queue, size)
      then b.(published := b.published + 1, dropped := b.dropped + 1)
      else b.(published := b.published + 1, queue := b.queue + [e], accepted := b.accepted + [e])
    case Await =>
      if b.running && b.working && b.hand.None? then b.(waiting := b.waiting || b.attached) else b
    case Take =>
      if b.running && b.waiting && b.hand.None? && b.queue != [] then
        b.(waiting := false, hand := Some(b.queue[0]), queue := b.queue[1..],
           deliveries := b.deliveries + DeliveriesOf(b, b.queue[0]))
      else b
    case Done =>
      if b.running && b.working && b.hand.Some? then
        b.(hand := None, dispatched := b.dispatched + [b.hand.value], working := b.attached, waiting := b.attached)
      else b
    case StopBegin =>
      if !b.running then b else b.(running := false, stops := b.stops + if b.working then 1 else 0)
    case StopEnd => if b.stops > 0 then b.(stops := b.stops - 1, attached := false) else b
    case Register(scope, r) =>
      b.(subscribers := b.subscribers[scope := Put(RegistrationsOf(b.subscribers, scope), r)])
    case Unregister(scope, name) =>
      b.(subscribers := b.subscribers[scope := Without(RegistrationsOf(b.subscribers, scope), name)])
  }

  function Run(b: Bus, steps: seq<Step>, size: int): Bus {
    if steps == [] then b else Next(Run(b, steps[..|steps| - 1], size), steps[|steps| - 1], size)
  }

  function InHand(b: Bus): seq<PlatformEvent> {
    if b.hand.Some? then [b.hand.value] else []
  }

  class EventBus {
    const size: int
    var running: bool
    var attached: bool
    var working: bool
    var waiting: bool
    var items: seq<PlatformEvent>
    var inHand: Option<PlatformEvent>
    var subscribers: map<Scope, seq<Registration>>
    ghost var history: Bus

    ghost predicate Valid()
      reads this
    {
      && running == history.running && attached == history.attached && working == history.working
      && waiting == history.waiting && items == history.queue && inHand == history.hand
      && subscribers == history.subscribers
    }

    constructor (size: int)
      ensures Valid() && history == IDLE && this.size == size
    {
      this.size := size;
      running, attached, working, waiting := false, false, false, false;
      items, inHand, subscribers := [], None, map[];
      history := IDLE;
    }

    method StartBus()
      requires Valid()
      modifies this
      ensures Valid() && history == Next(old(history), Start, size)
    {
      history := Next(history, Start, size);
      if running {
        return;
      }
      items, attached := [], true;
      running := true;
      inHand, working, waiting := None, true, false;
    }

    method PublishEvent(e: PlatformEvent)
      requires Valid()
      modifies this
      ensures Valid() && history == Next(old(history), Publish(e), size)
      ensures var room := old(running) && old(attached) && (size <= 0 || |old(items)| < size);
              items == if room then old(items) + [e] else old(items)
    {
      history := Next(history, Publish(e), size);
      if !running {
        return;
      }
      if !attached {
        return;
      }
      if !Full(items, size) {
        items := items + [e];
      }
    }

    /** The worker's look at the bus before its `get`; it polls while there is no queue. */
    method WorkerAwait()
      requires Valid()
      modifies this
      ensures Valid() && history == Next(old(history), Await, size)
    {
      history := Next(history, Await, size);
      if running && working && inHand.None? {
        if attached {
          waiting := true;
        }
      }
    }

    /** The worker's `get`: it takes the oldest queued event, if there is one. */
    method WorkerTake()
      requires Valid()
      modifies this
      ensures Valid() && history == Next(old(history), Take, size)
    {
      history := Next(history, Take, size);
      if running && waiting && inHand.None? && items != [] {
        waiting := false;
        inHand := Some(items[0]);
        items := items[1..];
      }
    }

    /** The end of a dispatch and the worker's `task_done`, which needs the bus to hold a queue. */
    method WorkerDone()
      requires Valid()
      modifies this
      ensures Valid() && history == Next(old(history), Done, size)
    {
      history := Next(history, Done, size);
      if running && working && inHand.Some? {
        inHand := None;
        working := attached;
        waiting := attached;
      }
    }

    /** `stop` up to the point where it waits for the cancelled worker. */
    method RequestStop()
      requires Valid()
      modifies this
      ensures Valid() && history == Next(old(history), StopBegin, size)
    {
      history := Next(history, StopBegin, size);
      if !running {
        return;
      }
      running := false;
    }

    /** The rest of `stop`, once its worker has ended. */
    method FinishStop()
      requires Valid() && history.stops > 0
      modifies this
      ensures Valid() && history == Next(old(history), StopEnd, size)
    {
      history := Next(history, StopEnd, size);
      attached := false;
    }

    method SubscribeTo(scope: Scope, name: string, callback: nat)
      requires Valid()
      modifies this
      ensures Valid() && history == Next(old(history), Register(scope, Registration(name, callback)), size)
    {
      history := Next(history, Register(scope, Registration(name, callback)), size);
      subscribers := subscribers[scope := Put(RegistrationsOf(subscribers, scope), Registration(name, callback))];
    }

    method UnsubscribeFrom(scope: Scope, name: string)
      requires Valid()
      modifies this
      ensures Valid() && history == Next(old(history), Unregister(scope, name), size)
    {
      history := Next(history, Unregister(scope, name), size);
      subscribers := subscribers[scope := Without(RegistrationsOf(subscribers, scope), name)];
    }
  }

  // ----- conservation and order -----

  ghost predicate Conserved(b: Bus, size: int) {
    && b.accepted == b.dispatched + InHand(b) + b.queue
    && b.published == |b.accepted| + b.dropped
    && (size > 0 ==> |b.queue| <= size)
  }

  lemma {:induction false} RunConserves(b: Bus, steps: seq<Step>, size: int)
    requires Conserved(b, size)
    ensures Conserved(Run(b, steps, size), size)
  {
    if steps != [] {
      RunConserves(b, steps[..|steps| - 1], size);
      NextConserves(Run(b, steps[..|steps| - 1], size), steps[|steps| - 1], size);
    }
  }

  /**
   * In every run: what the session accepted is what it dispatched, what it has in hand and what is
   * queued, in that order, so nothing accepted is lost, duplicated or reordered; everything
   * published was accepted or counted as dropped; and the queue never exceeds its size.
   */
  lemma BusConservesEvents(steps: seq<Step>, size: int)
    ensures Conserved(Run(IDLE, steps, size), size)
  {
    RunConserves(IDLE, steps, size);
  }

  lemma PublishConserves(b: Bus, e: PlatformEvent, size: int)
    requires Conserved(b, size)
    ensures Conserved(Next(b, Publish(e), size), size)
  {
    var front := b.dispatched + InHand(b);
    assert front + (b.queue + [e]) == (front + b.queue) + [e];
  }

  lemma TakeConserves(b: Bus, size: int)
    requires Conserved(b, size)
    ensures Conserved(Next(b, Take, size), size)
  {
    if Next(b, Take, size) != b {
      var c, e, rest := Next(b, Take, size), b.queue[0], b.queue[1..];
      assert InHand(b) == [] && InHand(c) == [e] && c.queue == rest && c.dispatched == b.dispatched;
      assert b.queue == [e] + rest;
      assert b.dispatched + [] + b.queue == b.dispatched + [e] + rest;
    }
  }

  lemma DoneConserves(b: Bus, size: int)
    requires Conserved(b, size)
    ensures Conserved(Next(b, Done, size), size)
  {
    if Next(b, Done, size) != b {
      assert (b.dispatched + [b.hand.value]) + [] + b.queue == b.accepted;
    }
  }

  lemma NextConserves(b: Bus, step: Step, size: int)
    requires Conserved(b, size)
    ensures Conserved(Next(b, step, size), size)
  {
    match step
    case Publish(e) => PublishConserves(b, e, size);
    case Take => TakeConserves(b, size);
    case Done => DoneConserves(b, size);
    case _ =>
  }

  // ----- what is accepted -----

  /** A serving bus drops an event exactly when a positive size is used up, and queues it last otherwise. */
  lemma PublishDropsIffNoRoom(b: Bus, e: PlatformEvent, size: int)
    requires b.running && b.attached
    ensures var c := Next(b, Publish(e), size);
            && c.dropped == b.dropped + (if size > 0 && |b.queue| >= size then 1 else 0)
            && c.queue == if size > 0 && |b.queue| >= size then b.queue else b.queue + [e]
  {
  }

  /** Nothing published to a bus that is stopped or has no queue is kept. */
  lemma PublishWithoutQueueDrops(b: Bus, e: PlatformEvent, size: int)
    requires !b.running || !b.attached
    ensures var c := Next(b, Publish(e), size);
            c.queue == b.queue && c.accepted == b.accepted && c.dropped == b.dropped + 1
  {
  }

  function Publishes(es: seq<PlatformEvent>): (steps: seq<Step>)
    ensures |steps| == |es|
  {
    seq(|es|, i requires 0 <= i < |es| => Publish(es[i]))
  }

  /** How many events a queue of this length can still take, of `n` offered ones. */
  function Room(queued: nat, size: int, n: nat): nat {
    if size <= 0 then n else Min(n, Max(0, size - queued))
  }

  /** A burst with no take in between leaves exactly the first events that fit, in order. */
  lemma {:induction false} BurstIsQueued(b: Bus, es: seq<PlatformEvent>, size: int)
    requires b.running && b.attached
    ensures var c := Run(b, Publishes(es), size);
            && c.running && c.attached
            && c.queue == b.queue + es[..Room(|b.queue|, size, |es|)]
            && c.dropped == b.dropped + |es| - Room(|b.queue|, size, |es|)
  {
    if es == [] {
      assert b.queue + [] == b.queue;
    } else {
      var front, e := es[..|es| - 1], es[|es| - 1];
      BurstIsQueued(b, front, size);
      assert Publishes(es)[..|es| - 1] == Publishes(front);
      var c := Run(b, Publishes(front), size);
      PublishDropsIffNoRoom(c, e, size);
      BurstExtends(b.queue, es, size);
    }
  }

  lemma BurstExtends(queue: seq<PlatformEvent>, es: seq<PlatformEvent>, size: int)
    requires es != []
    ensures var front, e := es[..|es| - 1], es[|es| - 1];
            var before := queue + front[..Room(|queue|, size, |front|)];
            var after := queue + es[..Room(|queue|, size, |es|)];
            if size > 0 && |before| >= size
            then after == before && Room(|queue|, size, |es|) == Room(|queue|, size, |front|)
            else after == before + [e] && Room(|queue|, size, |es|) == Room(|queue|, size, |front|) + 1
  {
    var front := es[..|es| - 1];
    var m, n := Room(|queue|, size, |front|), Room(|queue|, size, |es|);
    if n == m {
      assert es[..n] == front[..m];
    } else {
      assert es[..n] == front[..m] + [es[|es| - 1]];
    }
  }

  /** On a freshly started bus that is the first `size` events, or all of them without a bound. */
  lemma FreshBusQueuesTheFirst(b: Bus, es: seq<PlatformEvent>, size: int)
    requires !b.running
    ensures var c := Run(Next(b, Start, size), Publishes(es), size);
            c.queue == if size > 0 && |es| > size then es[..size] else es
  {
    BurstIsQueued(Next(b, Start, size), es, size);
  }

  // ----- what the worker does -----

  /** Without a running bus, without a living worker, or with an event already in hand nothing is taken. */
  lemma WorkerStandsStill(b: Bus, size: int)
    ensures !b.running ==> Next(b, Await, size) == b && Next(b, Take, size) == b && Next(b, Done, size) == b
    ensures !b.working ==> Next(b, Await, size) == b && Next(b, Done, size) == b
    ensures !b.waiting ==> Next(b, Take, size) == b
    ensures b.hand.Some? ==> Next(b, Await, size) == b && Next(b, Take, size) == b
    ensures b.hand.None? ==> Next(b, Done, size) == b
    ensures b.queue == [] ==> Next(b, Take, size) == b
  {
  }

  /** A new worker looks at the bus before it takes, and waits from then on exactly when there is a queue. */
  lemma WorkerLooksFirst(b: Bus, e: PlatformEvent, size: int)
    requires !b.running
    ensures var c := Next(Next(b, Start, size), Publish(e), size);
            && !c.waiting && Next(c, Take, size) == c && c.queue == [e]
            && Next(Next(c, Await, size), Take, size).hand == Some(e)
  {
  }

  lemma LookingMeansWaiting(b: Bus, size: int)
    requires b.running && b.working && b.hand.None? && !b.waiting
    ensures Next(b, Await, size) == if b.attached then b.(waiting := true) else b
  {
  }

  /** One round of the worker: the oldest event is dispatched, and the worker waits again or dies. */
  lemma WorkerRound(b: Bus, size: int)
    requires b.running && b.working && b.waiting && b.hand.None? && b.queue != []
    ensures var taken := Next(b, Take, size);
            var done := Next(taken, Done, size);
            && taken.hand == Some(b.queue[0]) && taken.queue == b.queue[1..] && !taken.waiting
            && taken.deliveries == b.deliveries + DeliveriesOf(b, b.queue[0])
            && done.hand == None && done.dispatched == b.dispatched + [b.queue[0]] && done.queue == b.queue[1..]
            && done.working == b.attached && done.waiting == b.attached
  {
  }

  /** A stop waits for a living worker and for nobody otherwise; a bus that is not running has nothing to stop. */
  lemma StopWaitsForTheWorker(b: Bus, size: int)
    ensures var c := Next(b, StopBegin, size);
            && !c.running && (!b.running ==> c == b)
            && (b.running ==> c.stops == if b.working then b.stops + 1 else b.stops)
  {
  }

  // ----- restarting -----

  /** The bus accepts events and has somebody to dispatch them. */
  predicate Serving(b: Bus) {
    b.running && b.attached && b.working
  }

  /** An idle bus serves exactly when an event published now is queued, taken and dispatched. */
  lemma ServingMeansDispatching(b: Bus, e: PlatformEvent, size: int)
    requires b.hand.None? && b.queue == [] && (b.waiting ==> b.working)
    ensures var c := Next(Next(Next(Next(b, Publish(e), size), Await, size), Take, size), Done, size);
            c.dispatched == (if Serving(b) then b.dispatched + [e] else b.dispatched)
  {
  }

  ghost predicate ServesUntilStopped(b: Bus, size: int) {
    forall steps :: StopBegin !in steps ==> Serving(Run(b, steps, size))
  }

  lemma {:induction false} NoStopWaitsServes(b: Bus, steps: seq<Step>, size: int)
    requires Serving(b) && b.stops == 0 && StopBegin !in steps
    ensures Serving(Run(b, steps, size)) && Run(b, steps, size).stops == 0
  {
    if steps != [] {
      NoStopWaitsServes(b, steps[..|steps| - 1], size);
    }
  }

  /** A serving bus goes on serving until it is stopped exactly when no earlier stop still waits. */
  lemma ServesIffNoStopWaits(b: Bus, size: int)
    requires Serving(b)
    ensures ServesUntilStopped(b, size) <==> b.stops == 0
  {
    if b.stops == 0 {
      forall steps: seq<Step> | StopBegin !in steps ensures Serving(Run(b, steps, size)) {
        NoStopWaitsServes(b, steps, size);
      }
    } else {
      assert Run(b, [StopEnd], size) == Next(Run(b, [], size), StopEnd, size) == Next(b, StopEnd, size);
      assert StopBegin !in [StopEnd] && !Serving(Run(b, [StopEnd], size));
    }
  }

  /** What a caller can check before a start: no stop is still waiting for its worker. */
  lemma StartServesIffNoStopWaits(b: Bus, size: int)
    requires !b.running
    ensures ServesUntilStopped(Next(b, Start, size), size) <==> b.stops == 0
  {
    ServesIffNoStopWaits(Next(b, Start, size), size);
  }

  lemma DetachedStepAcceptsNothing(b: Bus, step: Step, size: int)
    requires b.running && !b.attached && !step.StopBegin?
    ensures var c := Next(b, step, size);
            c.running && !c.attached && c.accepted == b.accepted && c.dropped - b.dropped == c.published - b.published
  {
  }

  /** A running bus without its queue loses everything published until it is stopped. */
  lemma {:induction false} DetachedBusAcceptsNothing(b: Bus, steps: seq<Step>, size: int)
    requires b.running && !b.attached && StopBegin !in steps
    ensures var c := Run(b, steps, size);
            c.running && !c.attached && c.accepted == b.accepted && c.dropped - b.dropped == c.published - b.published
  {
    if steps != [] {
      var front, step := steps[..|steps| - 1], steps[|steps| - 1];
      assert step in steps;
      DetachedBusAcceptsNothing(b, front, size);
      DetachedStepAcceptsNothing(Run(b, front, size), step, size);
    }
  }

  /** An instance: a start that overtakes the end of a stop leaves such a bus behind. */
  lemma EarlyRestartDetachesTheBus(size: int)
    ensures var b := Run(IDLE, [Start, StopBegin, Start, StopEnd], size);
            b.running && !b.attached && b.stops == 0
  {
    var run := [Start, StopBegin, Start, StopEnd];
    assert run[..3] == [Start, StopBegin, Start] && run[..3][..2] == [Start, StopBegin];
    assert [Start, StopBegin][..1] == [Start] && [Start][..0] == [];
    var b1 := Next(IDLE, Start, size);
    assert Run(IDLE, [Start], size) == Next(Run(IDLE, [], size), Start, size) == b1;
    var b2 := Next(b1, StopBegin, size);
    assert Run(IDLE, [Start, StopBegin], size) == b2;
    assert Run(IDLE, [Start, StopBegin, Start], size) == Next(b2, Start, size);
  }

  /** No `start` in the run finds a `stop` still waiting for its worker. */
  ghost predicate StartsAfterStops(steps: seq<Step>, size: int) {
    forall n :: 0 <= n < |steps| && steps[n].Start? ==> Run(IDLE, steps[..n], size).stops == 0
  }

  ghost predicate Healthy(b: Bus) {
    b.stops <= 1 && (b.running ==> Serving(b) && b.stops == 0)
  }

  /** When every start waits for the stops before it, a running bus has its queue and its worker. */
  lemma {:induction false} OrderlyBusStaysHealthy(steps: seq<Step>, size: int)
    requires StartsAfterStops(steps, size)
    ensures Healthy(Run(IDLE, steps, size))
  {
    if steps != [] {
      var front := steps[..|steps| - 1];
      forall n | 0 <= n < |front| && front[n].Start? ensures Run(IDLE, front[..n], size).stops == 0 {
        assert front[n] == steps[n] && front[..n] == steps[..n];
      }
      OrderlyBusStaysHealthy(front, size);
    }
  }

  // ----- what each subscriber sees -----

  function Received(ds: seq<Delivery>, scope: Scope, name: string): seq<PlatformEvent> {
    if ds == [] then []
    else
      var d := ds[|ds| - 1];
      Received(ds[..|ds| - 1], scope, name) + if d.scope == scope && d.name == name then [d.event] else []
  }

  predicate InScope(scope: Scope, e: PlatformEvent) {
    scope.None? || scope.value == e.eventType
  }

  function Selected(es: seq<PlatformEvent>, scope: Scope): seq<PlatformEvent> {
    if es == [] then []
    else
      var e := es[|es| - 1];
      Selected(es[..|es| - 1], scope) + if InScope(scope, e) then [e] else []
  }

  predicate NoDuplicates(rs: seq<Registration>) {
    rs != [] ==> !Registered(rs[1..], rs[0].name) && NoDuplicates(rs[1..])
  }

  lemma {:induction false} ReceivedConcat(a: seq<Delivery>, b: seq<Delivery>, scope: Scope, name: string)
    ensures Received(a + b, scope, name) == Received(a, scope, name) + Received(b, scope, name)
  {
    if b == [] {
      assert a + b == a;
    } else {
      assert (a + b)[..|a + b| - 1] == a + b[..|b| - 1];
      ReceivedConcat(a, b[..|b| - 1], scope, name);
    }
  }

  lemma {:induction false} ReceivedFromScope(rs: seq<Registration>, s: Scope, e: PlatformEvent, scope: Scope,
                                             name: string)
    requires NoDuplicates(rs)
    ensures Received(DeliverTo(s, rs, e), scope, name) == if s == scope && Registered(rs, name) then [e] else []
  {
    if rs != [] {
      var first := [Delivery(s, rs[0].name, rs[0].callback, e)];
      assert DeliverTo(s, rs, e) == first + DeliverTo(s, rs[1..], e);
      ReceivedConcat(first, DeliverTo(s, rs[1..], e), scope, name);
      ReceivedFromScope(rs[1..], s, e, scope, name);
      assert Received(first, scope, name) == if s == scope && rs[0].name == name then [e] else [];
    }
  }

  ghost predicate NamesUnique(b: Bus) {
    forall scope :: scope in b.subscribers ==> NoDuplicates(b.subscribers[scope])
  }

  lemma {:induction false} PutRegisters(rs: seq<Registration>, r: Registration, name: string)
    requires NoDuplicates(rs)
    ensures NoDuplicates(Put(rs, r))
    ensures Registered(Put(rs, r), name) <==> Registered(rs, name) || name == r.name
  {
    if rs != [] {
      assert Put(rs, r)[1..] == if rs[0].name == r.name then rs[1..] else Put(rs[1..], r);
      if rs[0].name != r.name {
        PutRegisters(rs[1..], r, name);
        PutRegisters(rs[1..], r, rs[0].name);
      }
    }
  }

  /** Registering keeps everybody's place: a known name gets its new callback there, a new one comes last. */
  lemma {:induction false} PutKeepsPlaces(rs: seq<Registration>, r: Registration, i: nat)
    requires NoDuplicates(rs) && i < |rs|
    ensures |Put(rs, r)| == |rs| + (if Registered(rs, r.name) then 0 else 1)
    ensures Put(rs, r)[i] == if rs[i].name == r.name then r else rs[i]
    ensures !Registered(rs, r.name) ==> Put(rs, r)[|rs|] == r
  {
    if rs[0].name == r.name {
      if i > 0 {
        NotRegisteredAt(rs[1..], r.name, i - 1);
      }
    } else if |rs| > 1 {
      PutKeepsPlaces(rs[1..], r, if i > 0 then i - 1 else 0);
    }
  }

  lemma {:induction false} NotRegisteredAt(rs: seq<Registration>, name: string, i: nat)
    requires !Registered(rs, name) && i < |rs|
    ensures rs[i].name != name
  {
    if i > 0 {
      NotRegisteredAt(rs[1..], name, i - 1);
    }
  }

  lemma {:induction false} WithoutUnregisters(rs: seq<Registration>, gone: string, name: string)
    requires NoDuplicates(rs)
    ensures NoDuplicates(Without(rs, gone))
    ensures Registered(Without(rs, gone), name) <==> Registered(rs, name) && name != gone
  {
    if rs != [] && rs[0].name != gone {
      assert Without(rs, gone)[1..] == Without(rs[1..], gone);
      WithoutUnregisters(rs[1..], gone, name);
      WithoutUnregisters(rs[1..], gone, rs[0].name);
    }
  }

  ghost predicate SeesEverything(b: Bus, scope: Scope, name: string) {
    && NamesUnique(b) && Registered(RegistrationsOf(b.subscribers, scope), name)
    && Received(b.deliveries, scope, name) == Selected(b.dispatched + InHand(b), scope)
  }

  lemma RegisterSeesEverything(b: Bus, s: Scope, r: Registration, size: int, scope: Scope, name: string)
    requires SeesEverything(b, scope, name)
    ensures SeesEverything(Next(b, Register(s, r), size), scope, name)
  {
    PutRegisters(RegistrationsOf(b.subscribers, s), r, name);
  }

  lemma UnregisterSeesEverything(b: Bus, s: Scope, gone: string, size: int, scope: Scope, name: string)
    requires SeesEverything(b, scope, name) && (s != scope || gone != name)
    ensures SeesEverything(Next(b, Unregister(s, gone), size), scope, name)
  {
    WithoutUnregisters(RegistrationsOf(b.subscribers, s), gone, name);
  }

  lemma UniqueInScope(b: Bus, scope: Scope)
    requires NamesUnique(b)
    ensures NoDuplicates(RegistrationsOf(b.subscribers, scope))
  {
  }

  lemma TakeDeliversOnce(b: Bus, e: PlatformEvent, scope: Scope, name: string)
    requires NamesUnique(b) && Registered(RegistrationsOf(b.subscribers, scope), name)
    ensures Received(DeliveriesOf(b, e), scope, name) == if InScope(scope, e) then [e] else []
  {
    UniqueInScope(b, Some(e.eventType));
    UniqueInScope(b, None);
    OneDispatchDeliversOnce(RegistrationsOf(b.subscribers, Some(e.eventType)), RegistrationsOf(b.subscribers, None),
                            e, scope, name);
  }

  lemma OneDispatchDeliversOnce(own: seq<Registration>, wild: seq<Registration>, e: PlatformEvent, scope: Scope,
                                name: string)
    requires NoDuplicates(own) && NoDuplicates(wild)
    requires scope == Some(e.eventType) ==> Registered(own, name)
    requires scope == None ==> Registered(wild, name)
    ensures Received(DeliverTo(Some(e.eventType), own, e) + DeliverTo(None, wild, e), scope, name)
         == if InScope(scope, e) then [e] else []
  {
    ReceivedConcat(DeliverTo(Some(e.eventType), own, e), DeliverTo(None, wild, e), scope, name);
    ReceivedFromScope(own, Some(e.eventType), e, scope, name);
    ReceivedFromScope(wild, None, e, scope, name);
  }

  lemma SelectedPush(es: seq<PlatformEvent>, e: PlatformEvent, scope: Scope)
    ensures Selected(es + [e], scope) == Selected(es, scope) + if InScope(scope, e) then [e] else []
  {
    assert (es + [e])[..|es|] == es;
  }

  lemma TakeLogs(b: Bus, size: int)
    requires Next(b, Take, size) != b
    ensures var c := Next(b, Take, size);
            && c.subscribers == b.subscribers && b.queue != []
            && c.deliveries == b.deliveries + DeliveriesOf(b, b.queue[0])
            && c.dispatched + InHand(c) == b.dispatched + [b.queue[0]]
            && b.dispatched + InHand(b) == b.dispatched
  {
  }

  lemma DispatchSeesEverything(b: Bus, e: PlatformEvent, c: Bus, scope: Scope, name: string)
    requires SeesEverything(b, scope, name) && b.dispatched + InHand(b) == b.dispatched
    requires c.subscribers == b.subscribers && c.deliveries == b.deliveries + DeliveriesOf(b, e)
    requires c.dispatched + InHand(c) == b.dispatched + [e]
    ensures SeesEverything(c, scope, name)
  {
    ReceivedConcat(b.deliveries, DeliveriesOf(b, e), scope, name);
    TakeDeliversOnce(b, e, scope, name);
    SelectedPush(b.dispatched, e, scope);
  }

  lemma TakeSeesEverything(b: Bus, size: int, scope: Scope, name: string)
    requires SeesEverything(b, scope, name)
    ensures SeesEverything(Next(b, Take, size), scope, name)
  {
    if Next(b, Take, size) != b {
      TakeLogs(b, size);
      DispatchSeesEverything(b, b.queue[0], Next(b, Take, size), scope, name);
    }
  }

  lemma DoneSeesEverything(b: Bus, size: int, scope: Scope, name: string)
    requires SeesEverything(b, scope, name)
    ensures SeesEverything(Next(b, Done, size), scope, name)
  {
    if Next(b, Done, size) != b {
      var all := b.dispatched + [b.hand.value];
      assert all + [] == all;
    }
  }

  lemma StartSeesEverything(b: Bus, size: int, scope: Scope, name: string)
    requires SeesEverything(b, scope, name)
    ensures SeesEverything(Next(b, Start, size), scope, name)
  {
    var b' := Next(b, Start, size);
    if b' != b {
      assert b'.dispatched + InHand(b') == [];
    }
  }

  predicate SameLog(b: Bus, c: Bus) {
    c.subscribers == b.subscribers && c.deliveries == b.deliveries && c.dispatched == b.dispatched && c.hand == b.hand
  }

  predicate LeavesLog(step: Step) {
    step.Publish? || step.Await? || step.StopBegin? || step.StopEnd?
  }

  lemma LogIsLeft(b: Bus, step: Step, size: int)
    requires LeavesLog(step)
    ensures SameLog(b, Next(b, step, size))
  {
  }

  lemma SameLogSeesEverything(b: Bus, c: Bus, scope: Scope, name: string)
    requires SeesEverything(b, scope, name) && SameLog(b, c)
    ensures SeesEverything(c, scope, name)
  {
  }

  lemma LeavingLogSeesEverything(b: Bus, step: Step, size: int, scope: Scope, name: string)
    requires SeesEverything(b, scope, name) && LeavesLog(step)
    ensures SeesEverything(Next(b, step, size), scope, name)
  {
    LogIsLeft(b, step, size);
    SameLogSeesEverything(b, Next(b, step, size), scope, name);
  }

  lemma StepSeesEverything(b: Bus, step: Step, size: int, scope: Scope, name: string)
    requires SeesEverything(b, scope, name) && step != Unregister(scope, name)
    ensures SeesEverything(Next(b, step, size), scope, name)
  {
    if LeavesLog(step) {
      LeavingLogSeesEverything(b, step, size, scope, name);
      return;
    }
    match step
    case Start => StartSeesEverything(b, size, scope, name);
    case Take => TakeSeesEverything(b, size, scope, name);
    case Done => DoneSeesEverything(b, size, scope, name);
    case Register(s, r) => RegisterSeesEverything(b, s, r, size, scope, name);
    case Unregister(s, gone) => UnregisterSeesEverything(b, s, gone, size, scope, name);
  }

  /**
   * A subscriber that stays registered receives every dispatched event of its type exactly once,
   * in the order the events were accepted, whatever the other subscribers do and however often
   * its own callback is replaced.
   */
  lemma {:induction false} SubscriberSeesEverything(b: Bus, steps: seq<Step>, size: int, scope: Scope, name: string)
    requires SeesEverything(b, scope, name)
    requires Unregister(scope, name) !in steps
    ensures SeesEverything(Run(b, steps, size), scope, name)
  {
    if steps != [] {
      var front, step := steps[..|steps| - 1], steps[|steps| - 1];
      SubscriberSeesEverything(b, front, size, scope, name);
      StepSeesEverything(Run(b, front, size), step, size, scope, name);
    }
  }
}
