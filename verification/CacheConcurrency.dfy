/** Many processes at work on both cache levels. Every critical section of the first level and every transaction of the
    second is one step, and the steps of different processes interleave freely. */
module CacheConcurrency {
  import opened Fnv
  import opened Wrappers
  import opened SharedSlots
  import opened OrderedStore
  import opened CacheKeys
  import opened TwoLevelCache

  type Process = nat

  /** What a process is in the middle of: a read that missed the first level, a value read from the second level and not
      yet copied to the first, a put or a clear that has reached the first level only, or a put that has not pruned. */
  datatype Doing =
    | Missed(p: Partition, key: string, room: nat)
    | Holding(p: Partition, key: string, value: seq<Byte>, fetched: nat)
    | Storing(p: Partition, key: string, value: seq<Byte>, expires: nat)
    | Pruning(p: Partition)
    | Clearing(which: int)

  datatype World = World(cache: Cache, doing: map<Process, Doing>)

  datatype Event =
    | Look(who: Process, p: Partition, key: string, room: nat, now: nat)
    | Fetching(who: Process, now: nat)
    | Promote(who: Process, now: nat)
    | PutFirst(who: Process, p: Partition, key: string, value: seq<Byte>, ttl: nat, now: nat)
    | PutSecond(who: Process)
    | PruneAfter(who: Process, now: nat)
    | ClearFirst(who: Process, which: int)
    | ClearSecond(who: Process)

  /** Each process does one thing after the other. */
  predicate Ready(cfg: Config, w: World, e: Event)
    requires ValidConfig(cfg)
  {
    match e
    case Look(_, p, _, _, _) => e.who !in w.doing && cfg.enabled[p]
    case Fetching(_, _) => e.who in w.doing && w.doing[e.who].Missed?
    case Promote(_, _) => e.who in w.doing && w.doing[e.who].Holding?
    case PutFirst(_, p, _, _, ttl, _) => e.who !in w.doing && cfg.enabled[p] && ttl != 0
    case PutSecond(_) => e.who in w.doing && w.doing[e.who].Storing?
    case PruneAfter(_, _) => e.who in w.doing && w.doing[e.who].Pruning?
    case ClearFirst(_, which) => e.who !in w.doing && which < PARTITIONS
    case ClearSecond(_) => e.who in w.doing && w.doing[e.who].Clearing? && w.doing[e.who].which < PARTITIONS
  }

  /** `delay` bounds the time between reading a value from the second level and copying it to the first. */
  predicate Allowed(cfg: Config, delay: nat, w: World, e: Event)
    requires ValidConfig(cfg)
  {
    Ready(cfg, w, e) && (e.Promote? ==> e.now <= w.doing[e.who].fetched + delay)
  }

  /** A step; one that its process is not ready for does nothing. */
  function Next(cfg: Config, w: World, e: Event): World
    requires ValidConfig(cfg)
  {
    var c := w.cache;
    if !Ready(cfg, w, e) then w
    else match e
    case Look(who, p, key, room, now) =>
      var r := SharedSlots.Get(c.l1, p, FullKey(cfg.space, p, key), room, now);
      World(c.(l1 := r.level), if r.value.None? && cfg.hasL2 then w.doing[who := Missed(p, key, room)] else w.doing)
    case Fetching(who, now) =>
      var d := w.doing[who];
      var r := Fetch(c.l2, FullKey(cfg.space, d.p, d.key), d.room, now);
      w.(doing := if r.Some? then w.doing[who := Holding(d.p, d.key, r.value, now)] else w.doing - {who})
    case Promote(who, now) =>
      var d := w.doing[who];
      World(L1Put(cfg, c, d.p, FullKey(cfg.space, d.p, d.key), d.value, now + cfg.ttl[d.p]), w.doing - {who})
    case PutFirst(who, p, key, value, ttl, now) =>
      World(L1Put(cfg, c, p, FullKey(cfg.space, p, key), value, now + ttl),
            if cfg.hasL2 then w.doing[who := Storing(p, key, value, now + ttl)] else w.doing)
    case PutSecond(who) =>
      var d := w.doing[who];
      World(if |d.value| > VALUE_MAX then c
            else c.(l2 := Insert(c.l2, FullKey(cfg.space, d.p, d.key), Record(d.value, d.expires))),
            w.doing[who := Pruning(d.p)])
    case PruneAfter(who, now) =>
      var p := w.doing[who].p;
      World(c.(l2 := Pruned(c.l2, PartitionPrefix(cfg.space, p), SpacePrefix(cfg.space), now, cfg.maxEntries[p], cfg.l2Bytes)),
            w.doing - {who})
    case ClearFirst(who, which) =>
      World(c.(l1 := Clear(c.l1, which)), if cfg.hasL2 then w.doing[who := Clearing(which)] else w.doing)
    case ClearSecond(who) =>
      var which := w.doing[who].which;
      var prefix := if which < 0 then SpacePrefix(cfg.space) else PartitionPrefix(cfg.space, which);
      World(c.(l2 := Without(c.l2, Everything(prefix))), w.doing - {who})
  }

  /** The value a step shows to its process: a hit in the first level, or in the second. */
  function Shown(cfg: Config, w: World, e: Event): Option<seq<Byte>>
    requires ValidConfig(cfg)
  {
    match e
    case Look(_, p, key, room, now) => SharedSlots.Get(w.cache.l1, p, FullKey(cfg.space, p, key), room, now).value
    case Fetching(who, now) =>
      if who in w.doing && w.doing[who].Missed?
      then Fetch(w.cache.l2, FullKey(cfg.space, w.doing[who].p, w.doing[who].key), w.doing[who].room, now) else None
    case _ => None
  }

  function EmptyWorld(): World {
    World(Cache(Level1(seq(SLOTS, _ => BLANK), 0), Tally(0, 0), []), map[])
  }

  /** The world before event `n`. */
  function WorldAt(cfg: Config, es: seq<Event>, n: nat): World
    requires ValidConfig(cfg) && n <= |es|
  {
    if n == 0 then EmptyWorld() else Next(cfg, WorldAt(cfg, es, n - 1), es[n - 1])
  }

  ghost predicate AllowedRun(cfg: Config, delay: nat, es: seq<Event>, n: nat)
    requires ValidConfig(cfg) && n <= |es|
  {
    forall k :: 0 <= k < n ==> Allowed(cfg, delay, WorldAt(cfg, es, k), es[k])
  }

  /** The fact is one of the puts among the first `n` events. */
  ghost predicate WasPut(es: seq<Event>, n: nat, f: Fact)
    requires n <= |es|
  {
    exists j :: 0 <= j < n && es[j].PutFirst? && f == Fact(es[j].p, es[j].key, es[j].value, es[j].now, es[j].ttl)
  }

  /** How long a copy may outlive its put. */
  function Slack(cfg: Config, delay: nat, p: Partition): nat
    requires ValidConfig(cfg)
  {
    if cfg.hasL2 then cfg.ttl[p] + delay else 0
  }

  ghost predicate SlotKnown(cfg: Config, delay: nat, es: seq<Event>, n: nat, s: Slot)
    requires ValidConfig(cfg) && n <= |es|
  {
    exists f :: WasPut(es, n, f) && s.key == FullKey(cfg.space, f.p, f.key) && s.partition == f.p && s.value == f.value
                && s.expires <= f.at + f.ttl + Slack(cfg, delay, f.p)
  }

  ghost predicate EntryKnown(cfg: Config, es: seq<Event>, n: nat, e: Entry)
    requires n <= |es|
  {
    exists f :: WasPut(es, n, f) && e.key == FullKey(cfg.space, f.p, f.key) && e.value == Record(f.value, f.at + f.ttl)
  }

  ghost predicate DoingKnown(cfg: Config, es: seq<Event>, n: nat, d: Doing)
    requires n <= |es|
  {
    match d
    case Holding(p, key, value, fetched) =>
      cfg.hasL2 && exists f :: WasPut(es, n, f) && f.p == p && f.key == key && f.value == value && fetched < f.at + f.ttl
    case Storing(p, key, value, expires) =>
      exists f :: WasPut(es, n, f) && f.p == p && f.key == key && f.value == value && expires == f.at + f.ttl
    case Missed(_, _, _) => cfg.hasL2
    case _ => true
  }

  /** Everything in either level and in any process's hands was put, and is not much older than its put allows. */
  ghost predicate Known(cfg: Config, delay: nat, es: seq<Event>, n: nat, w: World)
    requires ValidConfig(cfg) && n <= |es|
  {
    && WellKept(w.cache.l1)
    && (forall i :: 0 <= i < |w.cache.l1.slots| && w.cache.l1.slots[i].used ==> SlotKnown(cfg, delay, es, n, w.cache.l1.slots[i]))
    && (forall e :: e in w.cache.l2 ==> EntryKnown(cfg, es, n, e))
    && (forall who :: who in w.doing ==> DoingKnown(cfg, es, n, w.doing[who]))
  }

  lemma KnownLater(cfg: Config, delay: nat, es: seq<Event>, n: nat, w: World)
    requires ValidConfig(cfg) && n < |es| && Known(cfg, delay, es, n, w)
    ensures Known(cfg, delay, es, n + 1, w)
  {
    assert forall f :: WasPut(es, n, f) ==> WasPut(es, n + 1, f);
    forall i | 0 <= i < |w.cache.l1.slots| && w.cache.l1.slots[i].used
      ensures SlotKnown(cfg, delay, es, n + 1, w.cache.l1.slots[i])
    {
      assert SlotKnown(cfg, delay, es, n, w.cache.l1.slots[i]);
    }
    forall e | e in w.cache.l2 ensures EntryKnown(cfg, es, n + 1, e) {
      assert EntryKnown(cfg, es, n, e);
    }
    forall who | who in w.doing ensures DoingKnown(cfg, es, n + 1, w.doing[who]) {
      assert DoingKnown(cfg, es, n, w.doing[who]);
    }
  }

  lemma SlotKnownTouched(cfg: Config, delay: nat, es: seq<Event>, n: nat, s: Slot, touched: nat)
    requires ValidConfig(cfg) && n <= |es| && SlotKnown(cfg, delay, es, n, s)
    ensures SlotKnown(cfg, delay, es, n, s.(touched := touched))
  {
  }

  /** A put into the first level of a value that is known. */
  lemma L1PutKnown(cfg: Config, delay: nat, es: seq<Event>, n: nat, w: World, f: Fact, expires: nat)
    requires ValidConfig(cfg) && n <= |es| && Known(cfg, delay, es, n, w) && WasPut(es, n, f)
    requires expires <= f.at + f.ttl + Slack(cfg, delay, f.p)
    ensures Known(cfg, delay, es, n, w.(cache := L1Put(cfg, w.cache, f.p, FullKey(cfg.space, f.p, f.key), f.value, expires)))
  {
    hide FullKey, WellKept, WasPut;
    var full, l := FullKey(cfg.space, f.p, f.key), w.cache.l1;
    var r := SharedSlots.Put(l, w.cache.tally, f.p, full, f.value, expires, cfg.maxEntries[f.p], cfg.l1Bytes).level;
    L1PutOutcome(l, w.cache.tally, f.p, full, f.value, expires, cfg.maxEntries[f.p], cfg.l1Bytes);
    assert SlotKnown(cfg, delay, es, n, Stored(f.p, full, f.value, expires, r.tick));
    forall i | 0 <= i < |r.slots| && r.slots[i].used ensures SlotKnown(cfg, delay, es, n, r.slots[i]) {
      assert r.slots[i] == l.slots[i] || r.slots[i] == Stored(f.p, full, f.value, expires, r.tick);
    }
  }

  lemma FetchKnown(cfg: Config, delay: nat, es: seq<Event>, n: nat, w: World, p: Partition, key: string, room: nat, now: nat)
    requires ValidConfig(cfg) && n <= |es| && Known(cfg, delay, es, n, w)
    requires Fetch(w.cache.l2, FullKey(cfg.space, p, key), room, now).Some?
    ensures var value := Fetch(w.cache.l2, FullKey(cfg.space, p, key), room, now).value;
            exists f :: WasPut(es, n, f) && f.p == p && f.key == key && f.value == value && now < f.at + f.ttl
  {
    hide FullKey, WasPut, WellKept, SlotKnown;
    var full := FullKey(cfg.space, p, key);
    var e := Entry(full, Find(w.cache.l2, full).value);
    assert e in w.cache.l2 && EntryKnown(cfg, es, n, e);
    var f :| WasPut(es, n, f) && e.key == FullKey(cfg.space, f.p, f.key) && e.value == Record(f.value, f.at + f.ttl);
    FullKeyInjective(cfg.space, p, key, f.p, f.key);
  }

  lemma LookKnown(cfg: Config, delay: nat, es: seq<Event>, n: nat, w: World, p: Partition, key: string, room: nat, now: nat)
    requires ValidConfig(cfg) && n <= |es| && Known(cfg, delay, es, n, w)
    ensures var r := SharedSlots.Get(w.cache.l1, p, FullKey(cfg.space, p, key), room, now);
            && Known(cfg, delay, es, n, w.(cache := w.cache.(l1 := r.level)))
            && (r.value.Some? ==>
                  exists f :: WasPut(es, n, f) && f.p == p && f.key == key && f.value == r.value.value
                              && now < f.at + f.ttl + Slack(cfg, delay, p))
  {
    hide FullKey, WasPut, WellKept, SharedSlots.Get, Slack;
    var full, l := FullKey(cfg.space, p, key), w.cache.l1;
    var r := SharedSlots.Get(l, p, full, room, now);
    GetOutcome(l, p, full, room, now);
    forall i | 0 <= i < |r.level.slots| && r.level.slots[i].used ensures SlotKnown(cfg, delay, es, n, r.level.slots[i]) {
      SlotKnownTouched(cfg, delay, es, n, l.slots[i], r.level.slots[i].touched);
    }
    if r.value.Some? {
      var i :| 0 <= i < |l.slots| && l.slots[i].used && l.slots[i].partition == p && l.slots[i].key == full
               && l.slots[i].value == r.value.value && now < l.slots[i].expires;
      assert SlotKnown(cfg, delay, es, n, l.slots[i]);
      var f :| WasPut(es, n, f) && l.slots[i].key == FullKey(cfg.space, f.p, f.key) && l.slots[i].partition == f.p
               && l.slots[i].value == f.value && l.slots[i].expires <= f.at + f.ttl + Slack(cfg, delay, f.p);
      FullKeyInjective(cfg.space, p, key, f.p, f.key);
    }
  }

  /** Every step keeps everything known. */
  lemma NextKnown(cfg: Config, delay: nat, es: seq<Event>, n: nat, w: World)
    requires ValidConfig(cfg) && n < |es| && Known(cfg, delay, es, n, w) && Allowed(cfg, delay, w, es[n])
    ensures Known(cfg, delay, es, n + 1, Next(cfg, w, es[n]))
  {
    hide FullKey, WasPut, WellKept, SlotKnown, EntryKnown, Fetch, Insert, Pruned, Without, SharedSlots.Get, Clear, L1Put,
      PartitionPrefix, SpacePrefix, Slack;
    KnownLater(cfg, delay, es, n, w);
    match es[n]
    case Look(who, p, key, room, now) =>
      LookKnown(cfg, delay, es, n + 1, w, p, key, room, now);
    case Fetching(who, now) =>
      var d := w.doing[who];
      if Fetch(w.cache.l2, FullKey(cfg.space, d.p, d.key), d.room, now).Some? {
        FetchKnown(cfg, delay, es, n + 1, w, d.p, d.key, d.room, now);
      }
    case Promote(who, now) =>
      var d := w.doing[who];
      assert DoingKnown(cfg, es, n + 1, d);
      var f :| WasPut(es, n + 1, f) && f.p == d.p && f.key == d.key && f.value == d.value && d.fetched < f.at + f.ttl;
      SlackIs(cfg, delay, d.p);
      L1PutKnown(cfg, delay, es, n + 1, w, f, now + cfg.ttl[d.p]);
    case PutFirst(who, p, key, value, ttl, now) =>
      var f := Fact(p, key, value, now, ttl);
      JustPut(es, n, f);
      L1PutKnown(cfg, delay, es, n + 1, w, f, now + ttl);
    case PutSecond(who) =>
      var d := w.doing[who];
      StoreKnown(cfg, delay, es, n + 1, w, d);
    case PruneAfter(who, now) =>
      var p := w.doing[who].p;
      PrunedIsPart(w.cache.l2, PartitionPrefix(cfg.space, p), SpacePrefix(cfg.space), now, cfg.maxEntries[p], cfg.l2Bytes);
    case ClearFirst(who, which) =>
      ClearOutcome(w.cache.l1, which);
    case ClearSecond(who) =>
      var which := w.doing[who].which;
      WithoutKeeps(w.cache.l2, Everything(if which < 0 then SpacePrefix(cfg.space) else PartitionPrefix(cfg.space, which)));
  }

  lemma SlackIs(cfg: Config, delay: nat, p: Partition)
    requires ValidConfig(cfg)
    ensures cfg.hasL2 ==> Slack(cfg, delay, p) == cfg.ttl[p] + delay
  {
  }

  lemma JustPut(es: seq<Event>, n: nat, f: Fact)
    requires n < |es| && es[n].PutFirst? && f == Fact(es[n].p, es[n].key, es[n].value, es[n].now, es[n].ttl)
    ensures WasPut(es, n + 1, f)
  {
  }

  lemma StoreKnown(cfg: Config, delay: nat, es: seq<Event>, n: nat, w: World, d: Doing)
    requires ValidConfig(cfg) && n <= |es| && Known(cfg, delay, es, n, w) && d.Storing? && DoingKnown(cfg, es, n, d)
    ensures forall e :: e in Insert(w.cache.l2, FullKey(cfg.space, d.p, d.key), Record(d.value, d.expires)) ==>
              e in w.cache.l2 || EntryKnown(cfg, es, n, e)
  {
    hide FullKey, WasPut, WellKept, SlotKnown, Insert;
    var full := FullKey(cfg.space, d.p, d.key);
    InsertReplaces(w.cache.l2, full, Record(d.value, d.expires));
    assert EntryKnown(cfg, es, n, Entry(full, Record(d.value, d.expires)));
  }

  lemma {:induction false} RunKnown(cfg: Config, delay: nat, es: seq<Event>, n: nat)
    requires ValidConfig(cfg) && n <= |es| && AllowedRun(cfg, delay, es, n)
    ensures Known(cfg, delay, es, n, WorldAt(cfg, es, n))
  {
    hide Known, Next, Allowed;
    if n > 0 {
      RunKnown(cfg, delay, es, n - 1);
      NextKnown(cfg, delay, es, n - 1, WorldAt(cfg, es, n - 1));
    } else {
      EmptyKnown(cfg, delay, es);
    }
  }

  lemma EmptyKnown(cfg: Config, delay: nat, es: seq<Event>)
    requires ValidConfig(cfg)
    ensures Known(cfg, delay, es, 0, EmptyWorld())
  {
  }

  /** The partition and key a step asks for. */
  function Asked(w: World, e: Event): (Partition, string) {
    match e
    case Look(_, p, key, _, _) => (p, key)
    case Fetching(who, _) => if who in w.doing && w.doing[who].Missed? then (w.doing[who].p, w.doing[who].key) else (0, "")
    case _ => (0, "")
  }

  /** Main theorem: under every interleaving, a hit shows the value of some earlier put of its key, no later than that
      put's lifetime plus, with a second level, the lifetime of a promoted copy and the time the promotion took. */
  lemma HitsAreEarlierPuts(cfg: Config, delay: nat, es: seq<Event>, n: nat) returns (j: nat)
    requires ValidConfig(cfg) && n < |es| && AllowedRun(cfg, delay, es, n)
    requires Shown(cfg, WorldAt(cfg, es, n), es[n]).Some?
    ensures j < n && es[j].PutFirst? && (es[j].p, es[j].key) == Asked(WorldAt(cfg, es, n), es[n])
    ensures Shown(cfg, WorldAt(cfg, es, n), es[n]) == Some(es[j].value)
    ensures es[n].now < es[j].now + es[j].ttl + Slack(cfg, delay, es[j].p)
  {
    hide Known, WorldAt, SharedSlots.Get, FullKey, Fetch;
    var w := WorldAt(cfg, es, n);
    RunKnown(cfg, delay, es, n);
    var (p, key) := Asked(w, es[n]);
    var value := Shown(cfg, w, es[n]).value;
    if es[n].Look? {
      LookKnown(cfg, delay, es, n, w, p, key, es[n].room, es[n].now);
    } else {
      FetchKnown(cfg, delay, es, n, w, p, key, w.doing[es[n].who].room, es[n].now);
    }
    var f :| WasPut(es, n, f) && f.p == p && f.key == key && f.value == value && es[n].now < f.at + f.ttl + Slack(cfg, delay, p);
    j :| 0 <= j < n && es[j].PutFirst? && f == Fact(es[j].p, es[j].key, es[j].value, es[j].now, es[j].ttl);
  }

  /** A promotion brings its value back, whatever has been put or cleared since the value was read. */
  lemma PromotionWins(cfg: Config, w: World, who: Process, now: nat, asker: Process, room: nat, later: nat)
    requires ValidConfig(cfg) && WellKept(w.cache.l1) && Ready(cfg, w, Promote(who, now))
    requires var d := w.doing[who];
             Accepts(FullKey(cfg.space, d.p, d.key), d.value, cfg.l1Bytes) && |d.value| <= room && later < now + cfg.ttl[d.p]
    ensures var d := w.doing[who];
            Shown(cfg, Next(cfg, w, Promote(who, now)), Look(asker, d.p, d.key, room, later)) == Some(d.value)
  {
    hide FullKey, L1Put, WellKept, Accepts;
    var d := w.doing[who];
    FirstPutServes(cfg, w.cache, d.p, FullKey(cfg.space, d.p, d.key), d.value, now + cfg.ttl[d.p], later, room);
  }

  /** Process 0 puts, process 1 reads while process 2 clears everything, process 0 puts another value, and only then does
      process 1 copy what it has read to the first level. */
  function Revival(p: Partition, key: string, stale: seq<Byte>, next: seq<Byte>, room: nat, ttl: nat, now: nat): seq<Event> {
    [PutFirst(0, p, key, stale, ttl, now), PutSecond(0),
     ClearFirst(2, -1), Look(1, p, key, room, now), Fetching(1, now),
     PruneAfter(0, now), ClearSecond(2),
     PutFirst(0, p, key, next, ttl, now), PutSecond(0), PruneAfter(0, now),
     Promote(1, now), Look(2, p, key, room, now)]
  }

  /** A promotion in flight brings back a value that has been cleared and overwritten since: with a second level, no bound
      on the delay rules this out. */
  lemma PromotionRevives(cfg: Config, delay: nat, p: Partition, key: string, stale: seq<Byte>, next: seq<Byte>, room: nat,
                         ttl: nat, now: nat)
    requires ValidConfig(cfg) && cfg.hasL2 && cfg.enabled[p] && 0 < ttl && 0 < cfg.ttl[p] && |stale| <= room
    requires Accepts(FullKey(cfg.space, p, key), stale, cfg.l1Bytes)
    ensures var es := Revival(p, key, stale, next, room, ttl, now);
            AllowedRun(cfg, delay, es, 12) && Shown(cfg, WorldAt(cfg, es, 11), es[11]) == Some(stale)
  {
    hide FullKey, Insert, Pruned, Without, L1Put, Fetch, PartitionPrefix, SpacePrefix, Shown, WorldAt, WellKept;
    var es := Revival(p, key, stale, next, room, ttl, now);
    var full := FullKey(cfg.space, p, key);
    RevivalBegins(cfg, es, p, key, stale, next, room, ttl, now);
    var w10, w11 := WorldAt(cfg, es, 10), WorldAt(cfg, es, 11);
    RevivalGoesOn(cfg, es, p, key, stale, next, room, ttl, now);
    WorldNext(cfg, es, 10);
    assert AllowedRun(cfg, delay, es, 10) by {
      forall k | 0 <= k < 10 ensures Allowed(cfg, delay, WorldAt(cfg, es, k), es[k]) {
        assert !es[k].Promote?;
        assert k < 5 || k >= 5;
      }
    }
    RunKnown(cfg, delay, es, 10);
    assert es[10] == Promote(1, now) && es[11] == Look(2, p, key, room, now);
    PromotionWins(cfg, w10, 1, now, 2, room, now);
    assert w11.doing == map[];
    forall k | 0 <= k < 12 ensures Allowed(cfg, delay, WorldAt(cfg, es, k), es[k]) {
      assert k < 10 || k == 10 || k == 11;
    }
  }

  lemma WorldNext(cfg: Config, es: seq<Event>, k: nat)
    requires ValidConfig(cfg) && k < |es|
    ensures WorldAt(cfg, es, k + 1) == Next(cfg, WorldAt(cfg, es, k), es[k]) && WorldAt(cfg, es, 0) == EmptyWorld()
  {
    hide Next;
  }

  lemma ClearedMisses(l: Level1, p: Partition, key: string, room: nat, now: nat)
    ensures var c := Clear(l, -1); SharedSlots.Get(c, p, key, room, now) == GetResult(c, None, false)
  {
  }

  /** The value has been put into both levels, and process 2 has begun to clear. */
  lemma RevivalPuts(cfg: Config, es: seq<Event>, p: Partition, key: string, stale: seq<Byte>, next: seq<Byte>,
                    room: nat, ttl: nat, now: nat)
    requires ValidConfig(cfg) && cfg.hasL2 && cfg.enabled[p] && 0 < ttl && |stale| <= VALUE_MAX
    requires es == Revival(p, key, stale, next, room, ttl, now)
    ensures forall k :: 0 <= k < 3 ==> Ready(cfg, WorldAt(cfg, es, k), es[k])
    ensures var w2, w3 := WorldAt(cfg, es, 2), WorldAt(cfg, es, 3);
            && w3.doing == map[0 := Pruning(p), 2 := Clearing(-1)] && w3.cache.l1 == Clear(w2.cache.l1, -1)
            && w3.cache.l2 == Insert([], FullKey(cfg.space, p, key), Record(stale, now + ttl))
  {
    hide FullKey, Insert, L1Put, WorldAt, Clear, Record;
    var full := FullKey(cfg.space, p, key);
    WorldNext(cfg, es, 0);
    L1PutKeepsL2(cfg, EmptyWorld().cache, p, full, stale, now + ttl);
    var w1, w2 := WorldAt(cfg, es, 1), WorldAt(cfg, es, 2);
    assert w1.doing == map[0 := Storing(p, key, stale, now + ttl)] && w1.cache.l2 == [];
    WorldNext(cfg, es, 1);
    assert w2.doing == map[0 := Pruning(p)] && w2.cache.l2 == Insert([], full, Record(stale, now + ttl));
    WorldNext(cfg, es, 2);
  }

  /** Process 1 has read the value from the second level. */
  lemma RevivalBegins(cfg: Config, es: seq<Event>, p: Partition, key: string, stale: seq<Byte>, next: seq<Byte>,
                      room: nat, ttl: nat, now: nat)
    requires ValidConfig(cfg) && cfg.hasL2 && cfg.enabled[p] && 0 < ttl && |stale| <= room && |stale| <= VALUE_MAX
    requires es == Revival(p, key, stale, next, room, ttl, now)
    ensures forall k :: 0 <= k < 5 ==> Ready(cfg, WorldAt(cfg, es, k), es[k])
    ensures WorldAt(cfg, es, 5).doing == map[0 := Pruning(p), 2 := Clearing(-1), 1 := Holding(p, key, stale, now)]
  {
    hide FullKey, Insert, Fetch, WorldAt, Clear, SharedSlots.Get, Record;
    RevivalPuts(cfg, es, p, key, stale, next, room, ttl, now);
    WorldNext(cfg, es, 3);
    ClearedMisses(WorldAt(cfg, es, 2).cache.l1, p, FullKey(cfg.space, p, key), room, now);
    assert WorldAt(cfg, es, 4).doing == WorldAt(cfg, es, 3).doing[1 := Missed(p, key, room)];
    WorldNext(cfg, es, 4);
    StoredIsFetched([], FullKey(cfg.space, p, key), stale, now + ttl, room, now);
  }

  /** The clear ends and the value is overwritten; process 1 has not moved. */
  lemma RevivalGoesOn(cfg: Config, es: seq<Event>, p: Partition, key: string, stale: seq<Byte>, next: seq<Byte>,
                      room: nat, ttl: nat, now: nat)
    requires ValidConfig(cfg) && cfg.hasL2 && cfg.enabled[p] && 0 < ttl
    requires es == Revival(p, key, stale, next, room, ttl, now)
    requires WorldAt(cfg, es, 5).doing == map[0 := Pruning(p), 2 := Clearing(-1), 1 := Holding(p, key, stale, now)]
    ensures forall k :: 5 <= k < 10 ==> Ready(cfg, WorldAt(cfg, es, k), es[k])
    ensures WorldAt(cfg, es, 10).doing == map[1 := Holding(p, key, stale, now)]
  {
    hide FullKey, Insert, Pruned, Without, L1Put, PartitionPrefix, SpacePrefix, WorldAt;
    var held := map[1 := Holding(p, key, stale, now)];
    WorldNext(cfg, es, 5);
    assert WorldAt(cfg, es, 6).doing == held[2 := Clearing(-1)];
    WorldNext(cfg, es, 6);
    assert WorldAt(cfg, es, 7).doing == held;
    WorldNext(cfg, es, 7);
    assert WorldAt(cfg, es, 8).doing == held[0 := Storing(p, key, next, now + ttl)];
    WorldNext(cfg, es, 8);
    assert WorldAt(cfg, es, 9).doing == held[0 := Pruning(p)];
    WorldNext(cfg, es, 9);
  }
}
