/** backend/app/cache/cache_service.py: Redis with a local fallback. */
module CacheService {
  import opened Common

  /**
   * What becomes of one Redis call: it is answered, it never reaches the server (or there is no
   * client), or the server carries it out but the caller sees an error.
   */
  datatype Link = Answered | NotReached | AppliedUnanswered

  /** `setAt` and `ttl` give the expiry; clock readings are in seconds. */
  datatype Entry<V> = Entry(value: V, setAt: real, ttl: int)

  datatype Cache<V> = Cache(redis: map<string, Entry<V>>, local: map<string, Entry<V>>)

  function Deadline<V>(e: Entry<V>): real {
    e.setAt + e.ttl as real
  }

  /** `ttl_seconds or default`: an explicit zero also selects the default. */
  function EffectiveTtl(ttl: Option<int>, default: int): int {
    if ttl.Some? && ttl.value != 0 then ttl.value else default
  }

  /** Redis drops a key at its deadline; the fallback still serves it at that instant. */
  predicate LiveInRedis<V>(e: Entry<V>, now: real) { now < Deadline(e) }

  predicate LiveLocally<V>(e: Entry<V>, now: real) { now <= Deadline(e) }

  function GetEntry<V>(c: Cache<V>, key: string, now: real, link: Link): Option<Entry<V>> {
    if link.Answered? then
      if key in c.redis && LiveInRedis(c.redis[key], now) then Some(c.redis[key]) else None
    else if key in c.local && LiveLocally(c.local[key], now) then Some(c.local[key]) else None
  }

  /** A failed local lookup forgets the key; a Redis lookup changes nothing. */
  function AfterGet<V>(c: Cache<V>, key: string, now: real, link: Link): Cache<V> {
    if link.Answered? || GetEntry(c, key, now, link).Some? then c else c.(local := c.local - {key})
  }

  /** Redis refuses an expiry that is not positive, and the caller sees that as a failed call. */
  predicate Stores(link: Link, ttl: int) { !link.NotReached? && ttl > 0 }

  predicate Acknowledged(link: Link, ttl: int) { link.Answered? && ttl > 0 }

  function AfterSet<V>(c: Cache<V>, key: string, e: Entry<V>, link: Link): Cache<V> {
    Cache(if Stores(link, e.ttl) then c.redis[key := e] else c.redis,
          if Acknowledged(link, e.ttl) then c.local else c.local[key := e])
  }

  function AfterDelete<V>(c: Cache<V>, key: string, link: Link): Cache<V> {
    Cache(if link.NotReached? then c.redis else c.redis - {key}, c.local - {key})
  }

  class CacheService<V> {
    const defaultTtl: int
    var redis: map<string, Entry<V>>
    var localFallback: map<string, Entry<V>>

    function State(): Cache<V>
      reads this
    {
      Cache(redis, localFallback)
    }

    constructor (defaultTtl: int)
      ensures State() == Cache(map[], map[]) && this.defaultTtl == defaultTtl
    {
      this.defaultTtl := defaultTtl;
      redis, localFallback := map[], map[];
    }

    method Get(key: string, now: real, link: Link) returns (r: Option<V>)
      modifies this
      ensures State() == AfterGet(old(State()), key, now, link)
      ensures var e := GetEntry(old(State()), key, now, link); r == if e.Some? then Some(e.value.value) else None
    {
      if link.Answered? {
        return if key in redis && LiveInRedis(redis[key], now) then Some(redis[key].value) else None;
      }
      if key in localFallback && now <= Deadline(localFallback[key]) {
        return Some(localFallback[key].value);
      }
      localFallback := localFallback - {key};
      return None;
    }

    method Set(key: string, value: V, ttl: Option<int>, now: real, link: Link)
      modifies this
      ensures State() == AfterSet(old(State()), key, Entry(value, now, EffectiveTtl(ttl, defaultTtl)), link)
      ensures link.NotReached? ==>
                localFallback == old(localFallback)[key :=
                  Entry(value, now, if ttl == None || ttl == Some(0) then defaultTtl else ttl.value)]
    {
      var entry := Entry(value, now, EffectiveTtl(ttl, defaultTtl));
      if Stores(link, entry.ttl) {
        redis := redis[key := entry];
        if link.Answered? {
          return;
        }
      }
      localFallback := localFallback[key := entry];
    }

    method Delete(key: string, link: Link)
      modifies this
      ensures State() == AfterDelete(old(State()), key, link)
    {
      if !link.NotReached? {
        redis := redis - {key};
      }
      localFallback := localFallback - {key};
    }
  }

  // ----- how long a value lives -----

  /** Set and looked up in Redis, a value is there up to but not including its deadline. */
  lemma RedisServesBeforeDeadline<V>(c: Cache<V>, key: string, v: V, ttl: int, at: real, now: real)
    requires ttl >= 1
    ensures GetEntry(AfterSet(c, key, Entry(v, at, ttl), Answered), key, now, Answered)
         == if now < at + ttl as real then Some(Entry(v, at, ttl)) else None
  {
  }

  /** In the fallback it is still there at its deadline. */
  lemma FallbackServesThroughDeadline<V>(c: Cache<V>, key: string, v: V, ttl: int, at: real, now: real)
    ensures GetEntry(AfterSet(c, key, Entry(v, at, ttl), NotReached), key, now, NotReached)
         == if now <= at + ttl as real then Some(Entry(v, at, ttl)) else None
  {
  }

  /** Redis takes no value without a positive time to live; the fallback does, whatever Redis answers. */
  lemma RedisRefusesExpired<V>(c: Cache<V>, key: string, v: V, ttl: int, at: real, link: Link)
    requires ttl <= 0
    ensures AfterSet(c, key, Entry(v, at, ttl), link) == c.(local := c.local[key := Entry(v, at, ttl)])
  {
  }

  /** A value reaches exactly Redis, exactly the fallback, or, when Redis takes it unheard, both. */
  lemma SetReaches<V>(c: Cache<V>, key: string, v: V, ttl: int, at: real)
    requires ttl >= 1
    ensures var e := Entry(v, at, ttl);
            && AfterSet(c, key, e, Answered) == c.(redis := c.redis[key := e])
            && AfterSet(c, key, e, NotReached) == c.(local := c.local[key := e])
            && AfterSet(c, key, e, AppliedUnanswered) == Cache(c.redis[key := e], c.local[key := e])
  {
  }

  /** A lookup that Redis does not answer forgets the key when it finds nothing; no other lookup changes anything. */
  lemma MissForgets<V>(c: Cache<V>, key: string, now: real, link: Link)
    ensures var d := AfterGet(c, key, now, link);
            && d.redis == c.redis
            && d.local.Keys == (if !link.Answered? && key in c.local && now > Deadline(c.local[key])
                                then c.local.Keys - {key} else c.local.Keys)
            && forall k :: k in d.local ==> d.local[k] == c.local[k]
  {
  }

  // ----- runs -----

  datatype Op<V> =
    | GetOp(key: string, at: real, link: Link)
    | SetOp(key: string, value: V, ttl: int, at: real, link: Link)
    | DeleteOp(key: string, at: real, link: Link)

  function After<V>(c: Cache<V>, op: Op<V>): Cache<V> {
    match op
    case GetOp(key, at, link) => AfterGet(c, key, at, link)
    case SetOp(key, value, ttl, at, link) => AfterSet(c, key, Entry(value, at, ttl), link)
    case DeleteOp(key, at, link) => AfterDelete(c, key, link)
  }

  function Run<V>(ops: seq<Op<V>>): Cache<V> {
    if ops == [] then Cache(map[], map[]) else After(Run(ops[..|ops| - 1]), ops[|ops| - 1])
  }

  // ----- every value was set, is in time, and was not deleted since -----

  /** Entry `e` was stored by operation `i` and no delete carried out by Redis followed. */
  ghost predicate StoredBy<V>(ops: seq<Op<V>>, i: nat, key: string, e: Entry<V>) {
    && i < |ops|
    && ops[i].SetOp? && ops[i].key == key && Entry(ops[i].value, ops[i].at, ops[i].ttl) == e
    && forall j :: i < j < |ops| ==> !(ops[j].DeleteOp? && ops[j].key == key && !ops[j].link.NotReached?)
  }

  lemma StoredByExtends<V>(ops: seq<Op<V>>, op: Op<V>, i: nat, key: string, e: Entry<V>)
    requires StoredBy(ops, i, key, e)
    requires !(op.DeleteOp? && op.key == key && !op.link.NotReached?)
    ensures StoredBy(ops + [op], i, key, e)
  {
  }

  lemma {:induction false} EntriesWereStored<V>(ops: seq<Op<V>>, key: string)
    ensures key in Run(ops).redis ==> exists i :: StoredBy(ops, i, key, Run(ops).redis[key])
    ensures key in Run(ops).local ==> exists i :: StoredBy(ops, i, key, Run(ops).local[key])
  {
    if ops != [] {
      var front, op := ops[..|ops| - 1], ops[|ops| - 1];
      var before, after := Run(front), Run(ops);
      assert ops == front + [op];
      EntriesWereStored(front, key);
      if key in after.redis {
        if key in before.redis && after.redis[key] == before.redis[key] {
          var i :| StoredBy(front, i, key, before.redis[key]);
          if !(op.DeleteOp? && op.key == key) || op.link.NotReached? {
            StoredByExtends(front, op, i, key, after.redis[key]);
          }
        } else {
          assert StoredBy(ops, |front|, key, after.redis[key]);
        }
      }
      if key in after.local {
        if key in before.local && after.local[key] == before.local[key] {
          var i :| StoredBy(front, i, key, before.local[key]);
          StoredByExtends(front, op, i, key, after.local[key]);
        } else {
          assert StoredBy(ops, |front|, key, after.local[key]);
        }
      }
    }
  }

  /**
   * Under any pattern of Redis failures and recoveries, whatever a lookup returns was set for that
   * key by an earlier operation, has not outlived its time to live, and was not followed by a
   * delete that Redis carried out.
   */
  lemma LookupsAreSafe<V>(ops: seq<Op<V>>, key: string, now: real, link: Link)
    requires GetEntry(Run(ops), key, now, link).Some?
    ensures var e := GetEntry(Run(ops), key, now, link).value;
            (exists i :: StoredBy(ops, i, key, e)) && now <= Deadline(e)
  {
    EntriesWereStored(ops, key);
  }

  /**
   * A lookup right after a delete finds something exactly when the delete did not reach Redis, the
   * lookup does, and Redis still holds a live entry.
   */
  lemma DeleteCanBeUndone<V>(c: Cache<V>, key: string, del: Link, now: real, link: Link)
    ensures GetEntry(AfterDelete(c, key, del), key, now, link).Some?
       <==> del.NotReached? && link.Answered? && key in c.redis && LiveInRedis(c.redis[key], now)
  {
  }

  // ----- refinement of a plain map -----

  predicate WritesKey<V>(op: Op<V>, key: string) {
    !op.GetOp? && op.key == key
  }

  function Written<V>(op: Op<V>): Option<Entry<V>> {
    if op.SetOp? then Some(Entry(op.value, op.at, op.ttl)) else None
  }

  /** The plain map: the last entry set for the key and not deleted since. */
  function Latest<V>(ops: seq<Op<V>>, key: string): Option<Entry<V>> {
    if ops == [] then None
    else
      var op := ops[|ops| - 1];
      if WritesKey(op, key) then Written(op) else Latest(ops[..|ops| - 1], key)
  }

  /** The write takes effect in the tier that serves lookups over `link`. */
  predicate Takes<V>(op: Op<V>, link: Link) {
    match op
    case GetOp(_, _, _) => false
    case SetOp(_, _, ttl, _, done) => if link.Answered? then Stores(done, ttl) else !Acknowledged(done, ttl)
    case DeleteOp(_, _, done) => link.Answered? ==> !done.NotReached?
  }

  /** The plain map of those writes only that the serving tier took. */
  function LatestTaken<V>(ops: seq<Op<V>>, key: string, link: Link): Option<Entry<V>> {
    if ops == [] then None
    else
      var op := ops[|ops| - 1];
      if WritesKey(op, key) && Takes(op, link) then Written(op) else LatestTaken(ops[..|ops| - 1], key, link)
  }

  /** The serving tier took the key's last write. */
  predicate TookLastWrite<V>(ops: seq<Op<V>>, key: string, link: Link) {
    ops == [] ||
    var op := ops[|ops| - 1];
    if WritesKey(op, key) then Takes(op, link) else TookLastWrite(ops[..|ops| - 1], key, link)
  }

  ghost predicate Timely<V>(ops: seq<Op<V>>) {
    forall i, j :: 0 <= i < j < |ops| ==> ops[i].at <= ops[j].at
  }

  ghost predicate NotBefore<V>(ops: seq<Op<V>>, now: real) {
    forall i :: 0 <= i < |ops| ==> ops[i].at <= now
  }

  function LiveOnly<V>(e: Option<Entry<V>>, now: real, link: Link): Option<Entry<V>> {
    if e.Some? && (if link.Answered? then LiveInRedis(e.value, now) else LiveLocally(e.value, now)) then e else None
  }

  /**
   * Under any failures and recoveries a lookup answers like a plain map with expiry that has seen
   * those writes its own tier took.
   */
  lemma {:induction false} TierIsPlainMapOfItsWrites<V>(ops: seq<Op<V>>, key: string, now: real, link: Link)
    requires Timely(ops) && NotBefore(ops, now)
    ensures GetEntry(Run(ops), key, now, link) == LiveOnly(LatestTaken(ops, key, link), now, link)
  {
    if ops != [] {
      var front, op := ops[..|ops| - 1], ops[|ops| - 1];
      TierIsPlainMapOfItsWrites(front, key, op.at, link);
      TierIsPlainMapOfItsWrites(front, key, now, link);
    }
  }

  /**
   * So it answers like the plain map of all writes exactly when the serving tier's last write is
   * the last write, or neither of the two is still live.
   */
  lemma PlainMapIffLastWriteTaken<V>(ops: seq<Op<V>>, key: string, now: real, link: Link)
    requires Timely(ops) && NotBefore(ops, now)
    ensures var taken, latest := LatestTaken(ops, key, link), Latest(ops, key);
            GetEntry(Run(ops), key, now, link) == LiveOnly(latest, now, link) <==>
            taken == latest || (LiveOnly(taken, now, link).None? && LiveOnly(latest, now, link).None?)
  {
    TierIsPlainMapOfItsWrites(ops, key, now, link);
  }

  lemma {:induction false} LastWriteTakenIsLatest<V>(ops: seq<Op<V>>, key: string, link: Link)
    requires TookLastWrite(ops, key, link)
    ensures LatestTaken(ops, key, link) == Latest(ops, key)
  {
    if ops != [] && !WritesKey(ops[|ops| - 1], key) {
      LastWriteTakenIsLatest(ops[..|ops| - 1], key, link);
    }
  }

  /** In particular it does whenever the serving tier took the key's last write. */
  lemma CurrentTierIsPlainMap<V>(ops: seq<Op<V>>, key: string, now: real, link: Link)
    requires Timely(ops) && NotBefore(ops, now)
    requires TookLastWrite(ops, key, link)
    ensures GetEntry(Run(ops), key, now, link) == LiveOnly(Latest(ops, key), now, link)
  {
    LastWriteTakenIsLatest(ops, key, link);
    PlainMapIffLastWriteTaken(ops, key, now, link);
  }

  /** When the Redis status never changes, be it good or bad, the cache is a plain map with expiry. */
  lemma ConstantStatusIsPlainMap<V>(ops: seq<Op<V>>, key: string, now: real, link: Link)
    requires Timely(ops) && NotBefore(ops, now)
    requires forall op :: op in ops ==> op.link == link && (op.SetOp? ==> op.ttl > 0)
    ensures GetEntry(Run(ops), key, now, link) == LiveOnly(Latest(ops, key), now, link)
  {
    ConstantStatusIsCurrent(ops, key, link);
    CurrentTierIsPlainMap(ops, key, now, link);
  }

  lemma {:induction false} ConstantStatusIsCurrent<V>(ops: seq<Op<V>>, key: string, link: Link)
    requires forall op :: op in ops ==> op.link == link && (op.SetOp? ==> op.ttl > 0)
    ensures TookLastWrite(ops, key, link)
  {
    if ops != [] {
      assert ops[|ops| - 1] in ops;
      ConstantStatusIsCurrent(ops[..|ops| - 1], key, link);
    }
  }

  /** An instance where it does not: a value set while Redis was away is shadowed by the older one. */
  lemma ChangingStatusShadows(v: int, w: int)
    requires v != w
    ensures var ops := [SetOp("k", v, 300, 0.0, Answered), SetOp("k", w, 300, 1.0, NotReached)];
            && Timely(ops)
            && GetEntry(Run(ops), "k", 2.0, Answered) == Some(Entry(v, 0.0, 300))
            && Latest(ops, "k") == Some(Entry(w, 1.0, 300))
  {
    var a, b := SetOp("k", v, 300, 0.0, Answered), SetOp("k", w, 300, 1.0, NotReached);
    assert [a, b][..1] == [a] && [a][..0] == [];
    assert Run([a]) == After(Run([]), a);
    assert Run([a, b]) == After(Run([a]), b);
  }
}
