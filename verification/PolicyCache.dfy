/**
 * The active-policy cache: the gateway's read-then-fill (backend/app/engine/orchestration.py)
 * against the writer's delete-then-commit (backend/app/services/policy_service.py).
 */
module PolicyCache {
  import opened Common
  import opened CacheService

  const KEY := "active_policies"
  const LIST_LIMIT := 500

  /** A stored policy of the organization; `body` stands for its rule, action and name. */
  datatype PolicyRow = PolicyRow(id: nat, enabled: bool, deleted: bool, body: int)

  /** The enabled rows of a table kept in `created_at` order. */
  function Enabled(rows: seq<PolicyRow>): seq<PolicyRow> {
    if rows == [] then []
    else (if rows[0].enabled && !rows[0].deleted then [rows[0]] else []) + Enabled(rows[1..])
  }

  /** What the gateway's query returns. */
  function Active(rows: seq<PolicyRow>): seq<PolicyRow> {
    FirstN(Enabled(rows), LIST_LIMIT)
  }

  /** A list read from the database; `readAt` is a history variable. */
  datatype Fill = Fill(list: seq<PolicyRow>, readAt: real)

  datatype Commit = Commit(at: real, rows: seq<PolicyRow>)

  /** A list handed to policy evaluation: when, when it was stored, and what was committed then. */
  datatype Use = Use(at: real, fill: Fill, storedAt: real, current: seq<PolicyRow>)

  datatype Gateway = Missed | Read(fill: Fill)

  /** `writers` are the transactions between their cache delete and their end. */
  datatype Protocol = Protocol(
    commits: seq<Commit>,
    cache: Cache<Fill>,
    gateways: map<nat, Gateway>,
    writers: set<nat>,
    uses: seq<Use>)

  function Committed(p: Protocol): seq<PolicyRow>
    requires p.commits != []
  {
    p.commits[|p.commits| - 1].rows
  }

  function Boot(rows: seq<PolicyRow>, at: real): Protocol {
    Protocol([Commit(at, rows)], Cache(map[], map[]), map[], {}, [])
  }

  datatype Step =
    | Lookup(g: nat, at: real, link: Link)
    | ReadRows(g: nat, at: real)
    | FillCache(g: nat, at: real, link: Link)
    | DropKey(w: nat, at: real, link: Link)
    | CommitRows(w: nat, at: real, rows: seq<PolicyRow>)
    | Rollback(w: nat, at: real)

  function Next(p: Protocol, step: Step, ttl: int): Protocol
    requires p.commits != []
    ensures Next(p, step, ttl).commits != []
  {
    match step
    case Lookup(g, at, link) =>
      if g in p.gateways then p
      else
        var hit := GetEntry(p.cache, KEY, at, link);
        var q := p.(cache := AfterGet(p.cache, KEY, at, link));
        if hit.Some? then q.(uses := p.uses + [Use(at, hit.value.value, hit.value.setAt, Active(Committed(p)))])
        else q.(gateways := p.gateways[g := Missed])
    case ReadRows(g, at) =>
      if g in p.gateways && p.gateways[g].Missed?
      then p.(gateways := p.gateways[g := Read(Fill(Active(Committed(p)), at))]) else p
    case FillCache(g, at, link) =>
      if g in p.gateways && p.gateways[g].Read? then
        var fill := p.gateways[g].fill;
        p.(cache := AfterSet(p.cache, KEY, Entry(fill, at, ttl), link),
           gateways := p.gateways - {g},
           uses := p.uses + [Use(at, fill, at, Active(Committed(p)))])
      else p
    case DropKey(w, at, link) => p.(cache := AfterDelete(p.cache, KEY, link), writers := p.writers + {w})
    case CommitRows(w, at, rows) =>
      if w in p.writers then p.(commits := p.commits + [Commit(at, rows)], writers := p.writers - {w}) else p
    case Rollback(w, at) => p.(writers := p.writers - {w})
  }

  function Run(boot: Protocol, steps: seq<Step>, ttl: int): Protocol
    requires boot.commits != []
    ensures Run(boot, steps, ttl).commits != []
  {
    if steps == [] then boot else Next(Run(boot, steps[..|steps| - 1], ttl), steps[|steps| - 1], ttl)
  }

  ghost predicate Timely(steps: seq<Step>, now: real) {
    && (forall i :: 0 <= i < |steps| ==> now <= steps[i].at)
    && (forall i, j :: 0 <= i < j < |steps| ==> steps[i].at <= steps[j].at)
  }

  function Clock(steps: seq<Step>, now: real): real {
    if steps == [] then now else steps[|steps| - 1].at
  }

  // ----- what the gateway reads -----

  lemma {:induction false} EnabledOfConcat(rows: seq<PolicyRow>, more: seq<PolicyRow>)
    ensures Enabled(rows + more) == Enabled(rows) + Enabled(more)
  {
    if rows == [] {
      assert rows + more == more;
    } else {
      assert (rows + more)[1..] == rows[1..] + more;
      EnabledOfConcat(rows[1..], more);
    }
  }

  /** A row that is enabled and not deleted stays where it is among its like, any other is left out. */
  lemma EnabledKeepsOrder(before: seq<PolicyRow>, row: PolicyRow, after: seq<PolicyRow>)
    ensures Enabled(before + [row] + after)
         == Enabled(before) + (if row.enabled && !row.deleted then [row] else []) + Enabled(after)
  {
    EnabledOfConcat(before + [row], after);
    EnabledOfConcat(before, [row]);
    assert [row][1..] == [];
  }

  /** The query returns all such rows when there are at most 500 of them, and the 500 oldest otherwise. */
  lemma FiveHundredAreRead(rows: seq<PolicyRow>)
    ensures Active(rows) == if |Enabled(rows)| <= 500 then Enabled(rows) else Enabled(rows)[..500]
  {
  }

  /** A gateway that found nothing reads once and then fills; in between it neither looks up nor reads again. */
  lemma GatewayReadsOnce(p: Protocol, g: nat, at: real, link: Link, ttl: int)
    requires p.commits != []
    ensures g in p.gateways ==> Next(p, Lookup(g, at, link), ttl) == p
    ensures !(g in p.gateways && p.gateways[g].Missed?) ==> Next(p, ReadRows(g, at), ttl) == p
    ensures !(g in p.gateways && p.gateways[g].Read?) ==> Next(p, FillCache(g, at, link), ttl) == p
  {
  }

  /** A writer that gives up leaves the table and the cache as they are and is no longer pending. */
  lemma RollbackEndsWriter(p: Protocol, w: nat, at: real, ttl: int)
    requires p.commits != []
    ensures Next(p, Rollback(w, at), ttl) == p.(writers := Next(p, Rollback(w, at), ttl).writers)
    ensures forall v :: v in Next(p, Rollback(w, at), ttl).writers <==> v in p.writers && v != w
  {
  }

  /** A lookup that finds nothing while Redis is away drops what has expired from the fallback. */
  lemma LookupForgetsExpired(p: Protocol, g: nat, at: real, link: Link, ttl: int)
    requires p.commits != [] && g !in p.gateways && !link.Answered?
    requires KEY in p.cache.local && at > Deadline(p.cache.local[KEY])
    ensures KEY !in Next(p, Lookup(g, at, link), ttl).cache.local
  {
  }

  // ----- bounded staleness -----

  /** Commit `k` was the current one when the list was read. */
  ghost predicate ReadFrom(commits: seq<Commit>, f: Fill, k: nat) {
    && k < |commits| && commits[k].at <= f.readAt
    && (k + 1 < |commits| ==> f.readAt <= commits[k + 1].at)
    && f.list == Active(commits[k].rows)
  }

  ghost predicate WasCommitted(commits: seq<Commit>, f: Fill) {
    exists k :: ReadFrom(commits, f, k)
  }

  ghost predicate GoodFill(commits: seq<Commit>, f: Fill, now: real) {
    WasCommitted(commits, f) && f.readAt <= now
  }

  ghost predicate GoodEntry(commits: seq<Commit>, e: Entry<Fill>, ttl: int, now: real) {
    GoodFill(commits, e.value, now) && e.value.readAt <= e.setAt && e.ttl == ttl
  }

  ghost predicate GoodUse(commits: seq<Commit>, u: Use, ttl: int, now: real) {
    && GoodFill(commits, u.fill, now)
    && u.fill.readAt <= u.storedAt
    && (u.at == u.storedAt || u.at - u.storedAt <= ttl as real)
  }

  ghost predicate GoodGateway(commits: seq<Commit>, g: Gateway, now: real) {
    g.Read? ==> GoodFill(commits, g.fill, now)
  }

  ghost predicate Traceable(p: Protocol, ttl: int, now: real) {
    && p.commits != [] && p.commits[|p.commits| - 1].at <= now
    && (KEY in p.cache.redis ==> GoodEntry(p.commits, p.cache.redis[KEY], ttl, now))
    && (KEY in p.cache.local ==> GoodEntry(p.commits, p.cache.local[KEY], ttl, now))
    && (forall g :: g in p.gateways ==> GoodGateway(p.commits, p.gateways[g], now))
    && (forall u :: u in p.uses ==> GoodUse(p.commits, u, ttl, now))
  }

  lemma TraceableLater(p: Protocol, ttl: int, now: real, later: real)
    requires Traceable(p, ttl, now) && now <= later
    ensures Traceable(p, ttl, later)
  {
    forall g | g in p.gateways ensures GoodGateway(p.commits, p.gateways[g], later) {
      assert GoodGateway(p.commits, p.gateways[g], now);
    }
    forall u | u in p.uses ensures GoodUse(p.commits, u, ttl, later) {
      assert GoodUse(p.commits, u, ttl, now);
    }
  }

  lemma LookupTraceable(p: Protocol, g: nat, at: real, link: Link, ttl: int)
    requires Traceable(p, ttl, at)
    ensures Traceable(Next(p, Lookup(g, at, link), ttl), ttl, at)
  {
  }

  lemma ReadTraceable(p: Protocol, g: nat, at: real, ttl: int)
    requires Traceable(p, ttl, at)
    ensures Traceable(Next(p, ReadRows(g, at), ttl), ttl, at)
  {
    assert ReadFrom(p.commits, Fill(Active(Committed(p)), at), |p.commits| - 1);
  }

  lemma FillTraceable(p: Protocol, g: nat, at: real, link: Link, ttl: int)
    requires Traceable(p, ttl, at)
    ensures Traceable(Next(p, FillCache(g, at, link), ttl), ttl, at)
  {
    if g in p.gateways && p.gateways[g].Read? {
      assert GoodGateway(p.commits, p.gateways[g], at);
      assert GoodEntry(p.commits, Entry(p.gateways[g].fill, at, ttl), ttl, at);
    }
  }

  /** A later commit does not change what was current at an earlier instant. */
  lemma CommitKeepsPast(commits: seq<Commit>, c: Commit, f: Fill, now: real)
    requires GoodFill(commits, f, now) && now <= c.at
    ensures GoodFill(commits + [c], f, c.at)
  {
    var k :| ReadFrom(commits, f, k);
    assert ReadFrom(commits + [c], f, k);
  }

  lemma CommitTraceable(p: Protocol, w: nat, at: real, rows: seq<PolicyRow>, ttl: int)
    requires Traceable(p, ttl, at)
    ensures Traceable(Next(p, CommitRows(w, at, rows), ttl), ttl, at)
  {
    var c := Commit(at, rows);
    if w in p.writers {
      if KEY in p.cache.redis { CommitKeepsPast(p.commits, c, p.cache.redis[KEY].value, at); }
      if KEY in p.cache.local { CommitKeepsPast(p.commits, c, p.cache.local[KEY].value, at); }
      forall g | g in p.gateways ensures GoodGateway(p.commits + [c], p.gateways[g], at) {
        assert GoodGateway(p.commits, p.gateways[g], at);
        if p.gateways[g].Read? { CommitKeepsPast(p.commits, c, p.gateways[g].fill, at); }
      }
      forall u | u in p.uses ensures GoodUse(p.commits + [c], u, ttl, at) {
        assert GoodUse(p.commits, u, ttl, at);
        CommitKeepsPast(p.commits, c, u.fill, at);
      }
    }
  }

  lemma NextTraceable(p: Protocol, step: Step, ttl: int, now: real)
    requires Traceable(p, ttl, now) && now <= step.at
    ensures Traceable(Next(p, step, ttl), ttl, step.at)
  {
    TraceableLater(p, ttl, now, step.at);
    match step
    case Lookup(g, at, link) => LookupTraceable(p, g, at, link, ttl);
    case ReadRows(g, at) => ReadTraceable(p, g, at, ttl);
    case FillCache(g, at, link) => FillTraceable(p, g, at, link, ttl);
    case CommitRows(w, at, rows) => CommitTraceable(p, w, at, rows, ttl);
    case DropKey(w, at, link) =>
    case Rollback(w, at) =>
  }

  lemma {:induction false} RunTraceable(boot: Protocol, steps: seq<Step>, ttl: int, now: real)
    requires Traceable(boot, ttl, now) && Timely(steps, now)
    ensures Traceable(Run(boot, steps, ttl), ttl, Clock(steps, now))
  {
    if steps != [] {
      RunTraceable(boot, steps[..|steps| - 1], ttl, now);
      NextTraceable(Run(boot, steps[..|steps| - 1], ttl), steps[|steps| - 1], ttl, Clock(steps[..|steps| - 1], now));
    }
  }

  /**
   * In every interleaving of gateways and writers and under any Redis failures, every list used is
   * the enabled set committed at the instant it was read, and that instant is no older than the
   * time to live plus the time its own fill took.
   */
  lemma StalenessIsBounded(rows: seq<PolicyRow>, start: real, steps: seq<Step>, ttl: nat, u: Use)
    requires Timely(steps, start)
    requires u in Run(Boot(rows, start), steps, ttl).uses
    ensures WasCommitted(Run(Boot(rows, start), steps, ttl).commits, u.fill)
    ensures u.at - u.fill.readAt <= ttl as real + (u.storedAt - u.fill.readAt)
  {
    RunTraceable(Boot(rows, start), steps, ttl, start);
  }

  /**
   * A list that a later commit superseded is used for at most the time to live after that commit,
   * plus whatever part of its own fill came after the commit.
   */
  lemma SupersededListsExpire(rows: seq<PolicyRow>, start: real, steps: seq<Step>, ttl: nat, u: Use, k: nat)
    requires Timely(steps, start)
    requires u in Run(Boot(rows, start), steps, ttl).uses
    requires var commits := Run(Boot(rows, start), steps, ttl).commits;
             ReadFrom(commits, u.fill, k) && k + 1 < |commits|
    ensures var superseded := Run(Boot(rows, start), steps, ttl).commits[k + 1].at;
            && u.fill.readAt <= superseded
            && u.at - superseded <= ttl as real + RestOfFill(u, superseded)
            && RestOfFill(u, superseded) <= u.storedAt - u.fill.readAt
  {
    RunTraceable(Boot(rows, start), steps, ttl, start);
  }

  /** How much of the fill was still to come at `at`. */
  function RestOfFill(u: Use, at: real): real {
    if u.storedAt > at then u.storedAt - at else 0.0
  }

  // ----- when every use is current -----

  predicate UsesLink(step: Step, link: Link) {
    (step.Lookup? || step.DropKey?) ==> step.link == link
  }

  function Tier(c: Cache<Fill>, link: Link): map<string, Entry<Fill>> {
    if link.Answered? then c.redis else c.local
  }

  ghost predicate AllCurrent(p: Protocol) {
    forall u :: u in p.uses ==> u.fill.list == u.current
  }

  /** A gateway that has read its list and not yet filled the cache. */
  predicate HasRead(p: Protocol, g: nat) {
    g in p.gateways && p.gateways[g].Read?
  }

  /**
   * No writer is between its cache delete and its end, and the list is the committed one: the
   * guard a gateway could check before it fills the cache.
   */
  predicate Clean(p: Protocol, g: nat)
    requires p.commits != [] && HasRead(p, g)
  {
    p.writers == {} && p.gateways[g].fill.list == Active(Committed(p))
  }

  /** A list in the serving tier is the committed one, and no writer is about to replace it. */
  ghost predicate Fresh(p: Protocol, link: Link) {
    && p.commits != [] && AllCurrent(p)
    && (KEY in Tier(p.cache, link) ==>
          p.writers == {} && Tier(p.cache, link)[KEY].value.list == Active(Committed(p)))
  }

  lemma NextFresh(p: Protocol, step: Step, ttl: int, link: Link)
    requires Fresh(p, link) && UsesLink(step, link)
    requires step.FillCache? && HasRead(p, step.g) ==> Clean(p, step.g)
    ensures Fresh(Next(p, step, ttl), link)
  {
  }

  /** Every fill of the run is clean. */
  ghost predicate CleanFills(boot: Protocol, steps: seq<Step>, ttl: int)
    requires boot.commits != []
  {
    forall n :: 0 <= n < |steps| && steps[n].FillCache? && HasRead(Run(boot, steps[..n], ttl), steps[n].g) ==>
      Clean(Run(boot, steps[..n], ttl), steps[n].g)
  }

  lemma CleanFillsBefore(boot: Protocol, front: seq<Step>, step: Step, ttl: int)
    requires boot.commits != [] && CleanFills(boot, front + [step], ttl)
    ensures CleanFills(boot, front, ttl)
    ensures step.FillCache? && HasRead(Run(boot, front, ttl), step.g) ==> Clean(Run(boot, front, ttl), step.g)
  {
    var steps := front + [step];
    assert steps[..|front|] == front && steps[|front|] == step;
    forall n | 0 <= n < |front| && front[n].FillCache? && HasRead(Run(boot, front[..n], ttl), front[n].g)
      ensures Clean(Run(boot, front[..n], ttl), front[n].g)
    {
      assert steps[n] == front[n] && steps[..n] == front[..n];
    }
  }

  /** When lookups and key drops always meet the same Redis status, clean fills keep every use current. */
  lemma {:induction false} CleanFillsKeepFresh(boot: Protocol, steps: seq<Step>, ttl: int, link: Link)
    requires Fresh(boot, link)
    requires forall step :: step in steps ==> UsesLink(step, link)
    requires CleanFills(boot, steps, ttl)
    ensures Fresh(Run(boot, steps, ttl), link)
  {
    if steps != [] {
      var front, step := steps[..|steps| - 1], steps[|steps| - 1];
      assert steps == front + [step];
      CleanFillsBefore(boot, front, step, ttl);
      CleanFillsKeepFresh(boot, front, ttl, link);
      NextFresh(Run(boot, front, ttl), step, ttl, link);
    }
  }

  // ----- a fill that is not clean -----

  /** What may follow: anything but a fill, on time, its lookups and key drops meeting the same Redis status. */
  ghost predicate Follows(steps: seq<Step>, link: Link, now: real) {
    Timely(steps, now) && forall step :: step in steps ==> UsesLink(step, link) && !step.FillCache?
  }

  ghost predicate StaysCurrent(p: Protocol, ttl: int, link: Link, now: real)
    requires p.commits != []
  {
    forall steps :: Follows(steps, link, now) ==> AllCurrent(Run(p, steps, ttl))
  }

  lemma CleanFillStaysCurrent(p: Protocol, g: nat, at: real, ttl: int, link: Link)
    requires p.commits != [] && AllCurrent(p) && ttl > 0
    requires HasRead(p, g) && Clean(p, g)
    ensures StaysCurrent(Next(p, FillCache(g, at, link), ttl), ttl, link, at)
  {
    var q := Next(p, FillCache(g, at, link), ttl);
    forall steps: seq<Step> | Follows(steps, link, at) ensures AllCurrent(Run(q, steps, ttl)) {
      assert forall n :: 0 <= n < |steps| ==> steps[n] in steps && !steps[n].FillCache?;
      CleanFillsKeepFresh(q, steps, ttl, link);
    }
  }

  /** A table whose list differs from the given one. */
  function OtherRows(list: seq<PolicyRow>): (rows: seq<PolicyRow>)
    ensures Active(rows) != list
  {
    if list == [] then [PolicyRow(0, true, false, 0)] else []
  }

  /** When a writer is pending, its commit and one lookup use the list just filled in place of its own. */
  lemma PendingWriterMakesStale(p: Protocol, g: nat, at: real, ttl: int, link: Link, w: nat)
    requires p.commits != [] && ttl > 0 && HasRead(p, g) && w in p.writers
    ensures !StaysCurrent(Next(p, FillCache(g, at, link), ttl), ttl, link, at)
  {
    var fill := p.gateways[g].fill;
    var q := Next(p, FillCache(g, at, link), ttl);
    var commit, lookup := CommitRows(w, at, OtherRows(fill.list)), Lookup(g, at, link);
    assert [commit, lookup][..1] == [commit] && [commit][..0] == [];
    var r := Next(q, commit, ttl);
    assert Run(q, [commit], ttl) == Next(Run(q, [], ttl), commit, ttl) == r;
    assert Committed(r) == OtherRows(fill.list);
    assert GetEntry(r.cache, KEY, at, link) == Some(Entry(fill, at, ttl));
    var t := Next(r, lookup, ttl);
    assert t.uses == r.uses + [Use(at, fill, at, Active(Committed(r)))];
    assert t.uses[|r.uses|] in t.uses && !AllCurrent(t);
    assert Run(q, [commit, lookup], ttl) == t;
    assert Follows([commit, lookup], link, at);
  }

  /** A stale list is not current in the fill's own use. */
  lemma StaleListIsNotCurrent(p: Protocol, g: nat, at: real, ttl: int, link: Link)
    requires p.commits != [] && HasRead(p, g) && p.gateways[g].fill.list != Active(Committed(p))
    ensures !StaysCurrent(Next(p, FillCache(g, at, link), ttl), ttl, link, at)
  {
    var q := Next(p, FillCache(g, at, link), ttl);
    assert q.uses[|p.uses|] in q.uses && !AllCurrent(q);
    assert Follows([], link, at) && Run(q, [], ttl) == q;
  }

  /**
   * The exact condition: after a fill every use stays current, whatever else follows before the
   * next fill, if and only if the fill is clean.
   */
  lemma StaysCurrentIffClean(p: Protocol, g: nat, at: real, ttl: int, link: Link)
    requires p.commits != [] && AllCurrent(p) && ttl > 0 && HasRead(p, g)
    ensures StaysCurrent(Next(p, FillCache(g, at, link), ttl), ttl, link, at) <==> Clean(p, g)
  {
    if Clean(p, g) {
      CleanFillStaysCurrent(p, g, at, ttl, link);
    } else if p.writers != {} {
      var w :| w in p.writers;
      PendingWriterMakesStale(p, g, at, ttl, link, w);
    } else {
      StaleListIsNotCurrent(p, g, at, ttl, link);
    }
  }

  // ----- no overlap -----

  ghost predicate Apart(p: Protocol) {
    p.gateways == map[] || p.writers == {}
  }

  ghost predicate AlwaysApart(boot: Protocol, steps: seq<Step>, ttl: int)
    requires boot.commits != []
  {
    forall n :: 0 <= n <= |steps| ==> Apart(Run(boot, steps[..n], ttl))
  }

  ghost predicate ReadsCurrent(p: Protocol) {
    p.commits != [] && forall g :: HasRead(p, g) ==> p.gateways[g].fill.list == Active(Committed(p))
  }

  lemma NextReadsCurrent(p: Protocol, step: Step, ttl: int)
    requires ReadsCurrent(p) && Apart(p)
    ensures ReadsCurrent(Next(p, step, ttl))
  {
    var q := Next(p, step, ttl);
    forall g | HasRead(q, g) ensures q.gateways[g].fill.list == Active(Committed(q)) {
      assert HasRead(p, g) || step.ReadRows?;
    }
  }

  /** No overlap is one way to keep every fill clean. */
  lemma {:induction false} ApartMakesFillsClean(boot: Protocol, steps: seq<Step>, ttl: int)
    requires ReadsCurrent(boot) && AlwaysApart(boot, steps, ttl)
    ensures CleanFills(boot, steps, ttl) && ReadsCurrent(Run(boot, steps, ttl))
  {
    if steps != [] {
      var front, step := steps[..|steps| - 1], steps[|steps| - 1];
      assert AlwaysApart(boot, front, ttl) by {
        forall n | 0 <= n <= |front| ensures Apart(Run(boot, front[..n], ttl)) {
          assert front[..n] == steps[..n];
        }
      }
      ApartMakesFillsClean(boot, front, ttl);
      assert steps[..|front|] == front;
      NextReadsCurrent(Run(boot, front, ttl), step, ttl);
      forall n | 0 <= n < |steps| && steps[n].FillCache? && HasRead(Run(boot, steps[..n], ttl), steps[n].g)
        ensures Clean(Run(boot, steps[..n], ttl), steps[n].g)
      {
        if n < |front| {
          assert front[n] == steps[n] && front[..n] == steps[..n];
        }
      }
    }
  }

  /** The invariant of such runs: what is cached, read and used is the committed list. */
  lemma ApartIsExact(boot: Protocol, steps: seq<Step>, ttl: int, link: Link)
    requires Fresh(boot, link) && ReadsCurrent(boot)
    requires forall step :: step in steps ==> UsesLink(step, link)
    requires AlwaysApart(boot, steps, ttl)
    ensures Fresh(Run(boot, steps, ttl), link) && ReadsCurrent(Run(boot, steps, ttl))
  {
    ApartMakesFillsClean(boot, steps, ttl);
    CleanFillsKeepFresh(boot, steps, ttl, link);
  }

  /**
   * When lookups and key drops meet one Redis status and no fill is under way while a writer is between its
   * cache delete and its commit, every list used is the one committed at that very moment.
   */
  lemma SequentialUsesAreCurrent(rows: seq<PolicyRow>, start: real, steps: seq<Step>, ttl: int, link: Link, u: Use)
    requires forall step :: step in steps ==> UsesLink(step, link)
    requires AlwaysApart(Boot(rows, start), steps, ttl)
    requires u in Run(Boot(rows, start), steps, ttl).uses
    ensures u.fill.list == u.current
  {
    ApartIsExact(Boot(rows, start), steps, ttl, link);
  }

  /** A writer drops the key, and before it commits a gateway misses and reads the old rows. */
  function RaceBeforeCommit(): seq<Step> {
    [] + [DropKey(1, 1.0, Answered)] + [Lookup(2, 2.0, Answered)] + [ReadRows(2, 3.0)]
  }

  function RaceAfterCommit(row: PolicyRow, at: real): seq<Step> {
    RaceBeforeCommit() + [CommitRows(1, 4.0, [row])] + [FillCache(2, 5.0, Answered)] + [Lookup(3, at, Answered)]
  }

  lemma RaceReadsOldRows()
    ensures Run(Boot([], 0.0), RaceBeforeCommit(), 300)
         == Protocol([Commit(0.0, [])], Cache(map[], map[]), map[2 := Read(Fill([], 3.0))], {1}, [])
  {
    var boot := Boot([], 0.0);
    var s1 := [] + [DropKey(1, 1.0, Answered)];
    var s2 := s1 + [Lookup(2, 2.0, Answered)];
    var p1 := RunStep(boot, [], DropKey(1, 1.0, Answered),
                      Protocol([Commit(0.0, [])], Cache(map[], map[]), map[], {1}, []));
    var p2 := RunStep(boot, s1, Lookup(2, 2.0, Answered), p1.(gateways := map[2 := Missed]));
    var _ := RunStep(boot, s2, ReadRows(2, 3.0), p1.(gateways := map[2 := Read(Fill([], 3.0))]));
  }

  lemma RaceCommits(row: PolicyRow)
    ensures Run(Boot([], 0.0), RaceBeforeCommit() + [CommitRows(1, 4.0, [row])], 300)
         == Protocol([Commit(0.0, [])] + [Commit(4.0, [row])], Cache(map[], map[]),
                     map[2 := Read(Fill([], 3.0))], {}, [])
  {
    RaceReadsOldRows();
    var _ := RunStep(Boot([], 0.0), RaceBeforeCommit(), CommitRows(1, 4.0, [row]),
                     Run(Boot([], 0.0), RaceBeforeCommit(), 300).(
                       commits := [Commit(0.0, [])] + [Commit(4.0, [row])], writers := {}));
  }

  /** What the late fill leaves in the cache. */
  function StaleCache(): Cache<Fill> {
    Cache(map[KEY := Entry(Fill([], 3.0), 5.0, 300)], map[])
  }

  lemma RaceRefills(row: PolicyRow)
    requires row.enabled && !row.deleted
    ensures Run(Boot([], 0.0), RaceBeforeCommit() + [CommitRows(1, 4.0, [row])] + [FillCache(2, 5.0, Answered)], 300)
         == Protocol([Commit(0.0, [])] + [Commit(4.0, [row])], StaleCache(), map[], {},
                     [Use(5.0, Fill([], 3.0), 5.0, [row])])
  {
    RaceCommits(row);
    var boot, s4 := Boot([], 0.0), RaceBeforeCommit() + [CommitRows(1, 4.0, [row])];
    var p4 := Run(boot, s4, 300);
    assert Enabled([row]) == [row] + Enabled([]);
    assert Active(Committed(p4)) == [row];
    assert p4.gateways - {2} == map[];
    var _ := RunStep(boot, s4, FillCache(2, 5.0, Answered),
                     Protocol(p4.commits, StaleCache(), map[], {}, [] + [Use(5.0, Fill([], 3.0), 5.0, [row])]));
  }

  /**
   * An instance that a gateway can run into: because the key is dropped before the commit, it can
   * refill the key with the old list in between, and later requests use that list with no write in
   * progress, up to the time to live after the fill and so longer than that after the commit.
   */
  lemma RefillBeforeCommitGoesStale(row: PolicyRow, at: real)
    requires row.enabled && !row.deleted && 5.0 <= at < 305.0
    ensures var p := Run(Boot([], 0.0), RaceAfterCommit(row, at), 300);
            && Timely(RaceAfterCommit(row, at), 0.0) && p.writers == {} && p.gateways == map[]
            && p.uses == [Use(5.0, Fill([], 3.0), 5.0, [row]), Use(at, Fill([], 3.0), 5.0, [row])]
  {
    RaceRefills(row);
    var boot := Boot([], 0.0);
    var s5 := RaceBeforeCommit() + [CommitRows(1, 4.0, [row])] + [FillCache(2, 5.0, Answered)];
    var p5 := Run(boot, s5, 300);
    assert Enabled([row]) == [row] + Enabled([]);
    assert Active(Committed(p5)) == [row];
    var _ := RunStep(boot, s5, Lookup(3, at, Answered),
                     p5.(uses := p5.uses + [Use(at, Fill([], 3.0), 5.0, [row])]));
  }

  /** Evaluates one more step of a concrete run. */
  lemma RunStep(boot: Protocol, front: seq<Step>, step: Step, expected: Protocol) returns (p: Protocol)
    requires boot.commits != []
    requires Next(Run(boot, front, 300), step, 300) == expected
    ensures p == expected && Run(boot, front + [step], 300) == expected
  {
    assert (front + [step])[..|front|] == front;
    p := expected;
  }
}
