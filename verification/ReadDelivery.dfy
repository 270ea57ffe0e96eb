/** What the client's cache is for: a property that has been fetched is served from the cache, and only acknowledged writes
    and refreshes take that away. */
module ReadDelivery {
  import opened Fnv
  import opened Wrappers
  import opened SharedSlots
  import opened OrderedStore
  import opened CacheKeys
  import opened TwoLevelCache
  import opened ReadAfterWrite

  /** The first level shows `value` for the key until `expires`. */
  ghost predicate Serves(l: Level1, p: Partition, full: string, value: seq<Byte>, expires: nat) {
    exists i :: 0 <= i < |l.slots| && l.slots[i].used && l.slots[i].partition == p && l.slots[i].key == full
                && l.slots[i].value == value && l.slots[i].expires == expires
  }

  lemma ServedIsShown(l: Level1, p: Partition, full: string, value: seq<Byte>, expires: nat, room: nat, now: nat)
    requires UniqueKeys(l.slots) && Serves(l, p, full, value, expires) && now < expires && |value| <= room
    ensures SharedSlots.Get(l, p, full, room, now).value == Some(value)
  {
    var i :| 0 <= i < |l.slots| && l.slots[i].used && l.slots[i].partition == p && l.slots[i].key == full
             && l.slots[i].value == value && l.slots[i].expires == expires;
    FoundWhere(l.slots, i);
  }

  /** A read of another partition that finds nothing takes nothing away. */
  lemma MissKeepsServing(cfg: Config, c: Cache, q: Partition, key: string, room: nat, now: nat, p: Partition, full: string,
                         value: seq<Byte>, expires: nat)
    requires ValidConfig(cfg) && WellKept(c.l1) && p != q && Serves(c.l1, p, full, value, expires)
    requires CacheGet(cfg, c, q, key, room, now).value == None
    ensures var d := CacheGet(cfg, c, q, key, room, now).cache;
            WellKept(d.l1) && Serves(d.l1, p, full, value, expires)
  {
    hide FullKey, TwoLevelCache.Fetch, WellKept;
    GetOutcome(c.l1, q, FullKey(cfg.space, q, key), room, now);
    var i :| 0 <= i < |c.l1.slots| && c.l1.slots[i].used && c.l1.slots[i].partition == p && c.l1.slots[i].key == full
             && c.l1.slots[i].value == value && c.l1.slots[i].expires == expires;
    var d := CacheGet(cfg, c, q, key, room, now).cache;
    assert d.l1.slots[i] == c.l1.slots[i];
  }

  lemma KeptIsUnique(l: Level1)
    requires WellKept(l)
    ensures UniqueKeys(l.slots)
  {
  }

  /** What is fetched is put where the next read looks. */
  lemma FetchServes(cfg: Config, c: Cache, call: Call)
    requires ValidConfig(cfg) && call.Read? && call.partition.Some? && call.answer.Value? && WellKept(c.l1)
    requires cfg.enabled[call.partition.value] && 0 < cfg.ttl[call.partition.value]
    requires Accepts(FullKey(cfg.space, call.partition.value, call.key), call.answer.bytes, cfg.l1Bytes)
    ensures var p, full := call.partition.value, FullKey(cfg.space, call.partition.value, call.key);
            var d := ReadAfterWrite.Fetch(cfg, c, call).cache;
            WellKept(d.l1) && Serves(d.l1, p, full, call.answer.bytes, call.now + cfg.ttl[p])
  {
    hide FullKey, Pruned, Insert, Accepts;
    var p, full := call.partition.value, FullKey(cfg.space, call.partition.value, call.key);
    var bytes, expires := call.answer.bytes, call.now + cfg.ttl[p];
    PutIsLeastRecentlyUsed(c.l1, c.tally, p, full, bytes, expires, cfg.maxEntries[p], cfg.l1Bytes);
    var k := Target(c.l1.slots, p, full, cfg.maxEntries[p]);
    var d := ReadAfterWrite.Fetch(cfg, c, call).cache;
    assert d.l1.slots[k] == Stored(p, full, bytes, expires, d.l1.tick);
  }

  /** A property fetched from the network is served from the cache at the next read within its lifetime, unless the negative
      cache answers first. */
  lemma FetchedIsServed(cfg: Config, c: Cache, first: Call, second: Call)
    requires ValidConfig(cfg) && ValidCall(first) && ValidCall(second) && first.Read? && second.Read? && WellKept(c.l1)
    requires first.partition.Some? && second.partition == first.partition && second.key == first.key && !second.refresh
    requires first.answer.Value? && Perform(cfg, c, first).outcome == Fetched(first.answer.bytes)
    requires var p := first.partition.value;
             && cfg.enabled[p] && 0 < cfg.ttl[p] && second.now < first.now + cfg.ttl[p]
             && |first.answer.bytes| <= second.room
             && Accepts(FullKey(cfg.space, p, first.key), first.answer.bytes, cfg.l1Bytes)
    requires CacheGet(cfg, Perform(cfg, c, first).cache, NEGATIVE, NegativeKey(second.key), 1, second.now).value == None
    ensures Perform(cfg, Perform(cfg, c, first).cache, second).outcome == Cached(first.answer.bytes)
  {
    hide FullKey, Accepts, WellKept, CacheGet, CacheClear, Serves, ReadAfterWrite.Fetch;
    var p, full := first.partition.value, FullKey(cfg.space, first.partition.value, first.key);
    var bytes, expires := first.answer.bytes, first.now + cfg.ttl[p];
    var before := FetchedFrom(cfg, c, first);
    FetchServes(cfg, before, first);
    var d := Perform(cfg, c, first).cache;
    MissKeepsServing(cfg, d, NEGATIVE, NegativeKey(second.key), 1, second.now, p, full, bytes, expires);
    var e := CacheGet(cfg, d, NEGATIVE, NegativeKey(second.key), 1, second.now).cache;
    KeptIsUnique(e.l1);
    ServedIsShown(e.l1, p, full, bytes, expires, second.room, second.now);
    ShownIsGot(cfg, e, p, first.key, second.room, second.now);
  }

  lemma ShownIsGot(cfg: Config, c: Cache, p: Partition, key: string, room: nat, now: nat)
    requires ValidConfig(cfg) && cfg.enabled[p]
    requires SharedSlots.Get(c.l1, p, FullKey(cfg.space, p, key), room, now).value.Some?
    ensures CacheGet(cfg, c, p, key, room, now).value == SharedSlots.Get(c.l1, p, FullKey(cfg.space, p, key), room, now).value
  {
    hide FullKey, SharedSlots.Get, TwoLevelCache.Fetch;
  }

  /** The cache with which a read that is not served goes to the network. */
  lemma FetchedFrom(cfg: Config, c: Cache, call: Call) returns (before: Cache)
    requires ValidConfig(cfg) && ValidCall(call) && call.Read? && call.partition.Some? && call.answer.Value? && WellKept(c.l1)
    requires Perform(cfg, c, call).outcome == Fetched(call.answer.bytes)
    ensures WellKept(before.l1) && Perform(cfg, c, call) == ReadAfterWrite.Fetch(cfg, before, call)
  {
    hide FullKey, WellKept, CacheGet, CacheClear, ReadAfterWrite.Fetch;
    if call.refresh {
      ClearKeepsShape(cfg, c, call.partition.value);
      ClearKeepsShape(cfg, CacheClear(cfg, c, call.partition.value), NEGATIVE);
      before := CacheClear(cfg, CacheClear(cfg, c, call.partition.value), NEGATIVE);
    } else {
      var negative := CacheGet(cfg, c, NEGATIVE, NegativeKey(call.key), 1, call.now);
      GetKeepsShape(cfg, c, NEGATIVE, NegativeKey(call.key), 1, call.now);
      GetKeepsShape(cfg, negative.cache, call.partition.value, call.key, call.room, call.now);
      before := CacheGet(cfg, negative.cache, call.partition.value, call.key, call.room, call.now).cache;
    }
  }

  lemma ClearKeepsShape(cfg: Config, c: Cache, which: int)
    requires ValidConfig(cfg) && which < PARTITIONS && WellKept(c.l1)
    ensures WellKept(CacheClear(cfg, c, which).l1)
  {
    hide WellKept, Clear;
    ClearOutcome(c.l1, which);
  }

  lemma GetKeepsShape(cfg: Config, c: Cache, p: Partition, key: string, room: nat, now: nat)
    requires ValidConfig(cfg) && WellKept(c.l1)
    ensures WellKept(CacheGet(cfg, c, p, key, room, now).cache.l1)
  {
    hide FullKey, WellKept, SharedSlots.Get, SharedSlots.Put, TwoLevelCache.Fetch;
    var full := FullKey(cfg.space, p, key);
    GetOutcome(c.l1, p, full, room, now);
    var d := c.(l1 := SharedSlots.Get(c.l1, p, full, room, now).level);
    var second := TwoLevelCache.Fetch(d.l2, full, room, now);
    if second.Some? {
      L1PutOutcome(d.l1, d.tally, p, full, second.value, now + cfg.ttl[p], cfg.maxEntries[p], cfg.l1Bytes);
    }
  }

  /** A write that is not acknowledged leaves the cache alone; an acknowledged one takes nothing from the partitions of
      device discovery. */
  lemma WriteSparesOthers(cfg: Config, c: Cache)
    requires ValidConfig(cfg)
    ensures Perform(cfg, c, Write(false)).cache == c
    ensures var d := Perform(cfg, c, Write(true)).cache;
            && |d.l1.slots| == |c.l1.slots|
            && (forall i :: 0 <= i < |c.l1.slots| && c.l1.slots[i].used && !ServesReads(c.l1.slots[i].partition) ==>
                  d.l1.slots[i] == c.l1.slots[i])
            && (forall e, p, key :: e in c.l2 && e.key == FullKey(cfg.space, p, key) && !ServesReads(p) ==> e in d.l2)
  {
    hide FullKey, CacheClear;
    var c1 := CacheClear(cfg, c, STATE);
    var c2 := CacheClear(cfg, c1, OBJECT);
    var c3 := CacheClear(cfg, c2, OBJECT_LIST);
    ClearSpares(cfg, c, STATE);
    ClearSpares(cfg, c1, OBJECT);
    ClearSpares(cfg, c2, OBJECT_LIST);
    ClearSpares(cfg, c3, NEGATIVE);
  }

  lemma ClearSpares(cfg: Config, c: Cache, p: Partition)
    requires ValidConfig(cfg)
    ensures var d := CacheClear(cfg, c, p);
            && |d.l1.slots| == |c.l1.slots|
            && (forall i :: 0 <= i < |c.l1.slots| && c.l1.slots[i].partition != p ==> d.l1.slots[i] == c.l1.slots[i])
            && (forall e, q, key :: e in c.l2 && e.key == FullKey(cfg.space, q, key) && q != p ==> e in d.l2)
  {
    hide FullKey, PartitionPrefix, SpacePrefix, Without;
    WithoutKeeps(c.l2, Everything(PartitionPrefix(cfg.space, p)));
    forall e, q: Partition, key: string | e in c.l2 && e.key == FullKey(cfg.space, q, key) && q != p
      ensures e in CacheClear(cfg, c, p).l2
    {
      OwnScan(cfg.space, p, q, key);
    }
  }

  /** A refresh whose answer does not arrive leaves nothing of the partition behind. */
  lemma RefreshForgets(cfg: Config, c: Cache, call: Call)
    requires ValidConfig(cfg) && ValidCall(call) && call.Read? && call.refresh && call.partition.Some? && call.answer.Failure?
    requires !cfg.hasL2 ==> c.l2 == []
    ensures EmptyOf(cfg, Perform(cfg, c, call).cache, call.partition.value)
  {
    hide FullKey, CacheClear, EmptyOf;
    var d := CacheClear(cfg, c, call.partition.value);
    ClearEmpties(cfg, c, call.partition.value, call.partition.value);
    ClearEmpties(cfg, d, NEGATIVE, call.partition.value);
  }

  /** A timeout is remembered: the next read of the property within the lifetime of negative entries is not sent. */
  lemma TimeoutIsServed(cfg: Config, c: Cache, first: Call, second: Call)
    requires ValidConfig(cfg) && ValidCall(first) && ValidCall(second) && first.Read? && second.Read? && WellKept(c.l1)
    requires second.key == first.key && !second.refresh && first.answer.Timeout? && first.partition.Some?
    requires Perform(cfg, c, first).outcome == TimedOut
    requires cfg.enabled[NEGATIVE] && 0 < cfg.ttl[NEGATIVE] && second.now < first.now + cfg.ttl[NEGATIVE]
    requires Accepts(FullKey(cfg.space, NEGATIVE, NegativeKey(first.key)), [1], cfg.l1Bytes)
    ensures Perform(cfg, Perform(cfg, c, first).cache, second).outcome == CachedTimeout
  {
    hide FullKey, Accepts, WellKept, CacheGet, CacheClear, Pruned, Insert;
    var full, key := FullKey(cfg.space, NEGATIVE, NegativeKey(first.key)), NegativeKey(first.key);
    var before := TimedOutFrom(cfg, c, first);
    FirstPutServes(cfg, before, NEGATIVE, full, [1], first.now + cfg.ttl[NEGATIVE], second.now, 1);
    ShownIsGot(cfg, Perform(cfg, c, first).cache, NEGATIVE, key, 1, second.now);
  }

  lemma TimedOutFrom(cfg: Config, c: Cache, call: Call) returns (before: Cache)
    requires ValidConfig(cfg) && ValidCall(call) && call.Read? && call.partition.Some? && call.answer.Timeout? && WellKept(c.l1)
    requires Perform(cfg, c, call).outcome == TimedOut
    ensures WellKept(before.l1)
    ensures Perform(cfg, c, call).cache
            == CachePut(cfg, before, NEGATIVE, NegativeKey(call.key), [1], cfg.ttl[NEGATIVE], call.now)
  {
    hide FullKey, WellKept, CacheGet, CacheClear, CachePut;
    if call.refresh {
      ClearKeepsShape(cfg, c, call.partition.value);
      ClearKeepsShape(cfg, CacheClear(cfg, c, call.partition.value), NEGATIVE);
      before := CacheClear(cfg, CacheClear(cfg, c, call.partition.value), NEGATIVE);
    } else {
      var negative := CacheGet(cfg, c, NEGATIVE, NegativeKey(call.key), 1, call.now);
      GetKeepsShape(cfg, c, NEGATIVE, NegativeKey(call.key), 1, call.now);
      GetKeepsShape(cfg, negative.cache, call.partition.value, call.key, call.room, call.now);
      before := CacheGet(cfg, negative.cache, call.partition.value, call.key, call.room, call.now).cache;
    }
  }
}
