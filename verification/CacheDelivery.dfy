/** The other half of agreement: what is put can be read, and a read that misses has a reason. */
module CacheDelivery {
  import opened Fnv
  import opened Wrappers
  import opened SharedSlots
  import opened OrderedStore
  import opened CacheKeys
  import opened TwoLevelCache

  /** The second level after the store transaction of a put, before it is pruned. */
  function Stowed(cfg: Config, l2: seq<Entry>, p: Partition, key: string, value: seq<Byte>, ttl: nat, now: nat): seq<Entry> {
    if |value| > VALUE_MAX then l2 else Insert(l2, FullKey(cfg.space, p, key), Record(value, now + ttl))
  }

  lemma PutIsStowed(cfg: Config, c: Cache, p: Partition, key: string, value: seq<Byte>, ttl: nat, now: nat)
    requires ValidConfig(cfg) && cfg.hasL2 && cfg.enabled[p] && 0 < ttl
    ensures CachePut(cfg, c, p, key, value, ttl, now).l2 ==
            Pruned(Stowed(cfg, c.l2, p, key, value, ttl, now), PartitionPrefix(cfg.space, p), SpacePrefix(cfg.space), now,
                   cfg.maxEntries[p], cfg.l2Bytes)
  {
  }

  /** What is left of the store after a put if only the dead go. */
  function Survivors(cfg: Config, l2: seq<Entry>, p: Partition, key: string, value: seq<Byte>, ttl: nat, now: nat): seq<Entry> {
    Without(Stowed(cfg, l2, p, key, value, ttl, now), Dead(PartitionPrefix(cfg.space, p), now))
  }

  /** The limits leave room for everything alive after the put. */
  predicate Roomy(cfg: Config, l2: seq<Entry>, p: Partition, key: string, value: seq<Byte>, ttl: nat, now: nat)
    requires ValidConfig(cfg)
  {
    var live := Survivors(cfg, l2, p, key, value, ttl, now);
    CountPrefix(live, PartitionPrefix(cfg.space, p)) <= cfg.maxEntries[p] && Total(live, SpacePrefix(cfg.space)) <= cfg.l2Bytes
  }

  lemma FetchOfEntry(l2: seq<Entry>, full: string, value: seq<Byte>, expires: nat, room: nat, t: nat)
    requires Sorted(l2) && Entry(full, Record(value, expires)) in l2
    ensures Fetch(l2, full, room, t) == if t < expires && |value| <= room then Some(value) else None
  {
    hide Sorted;
    var e := Entry(full, Record(value, expires));
    FindHit(l2, full);
    assert StoresKey(l2, full);
    SortedKeysUnique(l2, e, Entry(full, Find(l2, full).value));
  }

  /** A put reaches the second level: as long as the limits leave room, the value can be read there until its lifetime is
      over, and not after. */
  lemma PutIsStored(cfg: Config, c: Cache, p: Partition, key: string, value: seq<Byte>, ttl: nat, now: nat, room: nat, t: nat)
    requires ValidConfig(cfg) && cfg.hasL2 && cfg.enabled[p] && 0 < ttl && |value| <= VALUE_MAX && Sorted(c.l2)
    requires Roomy(cfg, c.l2, p, key, value, ttl, now)
    ensures Fetch(CachePut(cfg, c, p, key, value, ttl, now).l2, FullKey(cfg.space, p, key), room, t)
            == if t < now + ttl && |value| <= room then Some(value) else None
  {
    hide FullKey, PartitionPrefix, SpacePrefix, Insert, Sorted, Without, Pruned, CountPrefix, Total, Fetch, CachePut;
    var full, stowed := FullKey(cfg.space, p, key), Stowed(cfg, c.l2, p, key, value, ttl, now);
    var prefix, live := PartitionPrefix(cfg.space, p), Survivors(cfg, c.l2, p, key, value, ttl, now);
    var e := Entry(full, Record(value, now + ttl));
    PutIsStowed(cfg, c, p, key, value, ttl, now);
    InsertReplaces(c.l2, full, Record(value, now + ttl));
    InsertStaysSorted(c.l2, full, Record(value, now + ttl));
    WithoutKeeps(stowed, Dead(prefix, now));
    StaysSorted(stowed, Dead(prefix, now));
    NothingRelieved(stowed, prefix, SpacePrefix(cfg.space), now, cfg.maxEntries[p], cfg.l2Bytes);
    assert e in live;
    FetchOfEntry(live, full, value, now + ttl, room, t);
  }

  /** Within the limits a prune removes the dead only. */
  lemma NothingRelieved(s: seq<Entry>, prefix: string, space: string, now: nat, maxEntries: nat, maxBytes: nat)
    requires var live := Without(s, Dead(prefix, now)); CountPrefix(live, prefix) <= maxEntries && Total(live, space) <= maxBytes
    ensures Pruned(s, prefix, space, now, maxEntries, maxBytes) == Without(s, Dead(prefix, now))
  {
    hide Without, CountPrefix, Total, Soonest, SizePrefix;
    TotalIsSize(Without(s, Dead(prefix, now)), space);
  }

  /** A read that misses the first level and finds the value in the second returns it, and leaves it in the first for the
      lifetime of the partition, if the first level accepts it. */
  lemma MissPromotes(cfg: Config, c: Cache, p: Partition, key: string, room: nat, now: nat, later: nat)
    requires ValidConfig(cfg) && cfg.hasL2 && cfg.enabled[p] && WellKept(c.l1)
    requires SharedSlots.Get(c.l1, p, FullKey(cfg.space, p, key), room, now).value == None
    requires Fetch(c.l2, FullKey(cfg.space, p, key), room, now).Some?
    ensures var value, r := Fetch(c.l2, FullKey(cfg.space, p, key), room, now).value, CacheGet(cfg, c, p, key, room, now);
            && r.value == Some(value) && r.cache.l2 == c.l2
            && (Accepts(FullKey(cfg.space, p, key), value, cfg.l1Bytes) && later < now + cfg.ttl[p] ==>
                  SharedSlots.Get(r.cache.l1, p, FullKey(cfg.space, p, key), room, later).value == Some(value))
  {
    hide FullKey, Fetch, SharedSlots.Get, WellKept, Accepts, L1Put;
    var full := FullKey(cfg.space, p, key);
    var d := c.(l1 := SharedSlots.Get(c.l1, p, full, room, now).level);
    var value := Fetch(c.l2, full, room, now).value;
    FetchFits(c.l2, full, room, now);
    GetOutcome(c.l1, p, full, room, now);
    L1PutKeepsL2(cfg, d, p, full, value, now + cfg.ttl[p]);
    if Accepts(full, value, cfg.l1Bytes) && later < now + cfg.ttl[p] {
      FirstPutServes(cfg, d, p, full, value, now + cfg.ttl[p], later, room);
    }
  }

  lemma FetchFits(l2: seq<Entry>, key: string, room: nat, now: nat)
    ensures Fetch(l2, key, room, now).Some? ==> |Fetch(l2, key, room, now).value| <= room
  {
  }

  /** The second level holds the fact. */
  ghost predicate InL2(c: Cache, full: string, f: Fact) {
    Entry(full, Record(f.value, f.at + f.ttl)) in c.l2
  }

  /** The first level holds the fact, for its whole lifetime. */
  ghost predicate InL1(c: Cache, full: string, f: Fact) {
    exists i :: 0 <= i < |c.l1.slots| && Shows(c.l1.slots[i], full, f)
  }

  predicate Shows(s: Slot, full: string, f: Fact) {
    s.used && s.key == full && s.partition == f.p && s.value == f.value && s.expires == f.at + f.ttl
  }

  ghost predicate Held(cfg: Config, c: Cache, full: string, f: Fact) {
    if cfg.hasL2 then InL2(c, full, f) else InL1(c, full, f)
  }

  ghost predicate ValidRun(cfg: Config, ops: seq<Op>) {
    ValidConfig(cfg) && forall i :: 0 <= i < |ops| ==> ValidOp(ops[i])
  }

  /** Operation `j` lost the fact. It is a put: of the fact itself, which was refused as too long; or of any value, and
      the eviction or the prune that came with it removed the fact. Without a second level it can also be a read of the
      key at a time when the fact had expired. */
  ghost predicate LostAt(cfg: Config, ops: seq<Op>, j: nat, full: string, f: Fact)
    requires ValidRun(cfg, ops) && j < |ops|
  {
    var c, op := CacheAfter(cfg, ops, j), ops[j];
    match op
    case PutOp(p, key, value, ttl, now) =>
      var own := FullKey(cfg.space, p, key) == full && f == Fact(p, key, value, now, ttl);
      if own then (if cfg.hasL2 then |value| > VALUE_MAX else !Accepts(full, value, cfg.l1Bytes)) || Removed2(cfg, c, op, full, f)
      else if cfg.hasL2 then Removed2(cfg, c, op, full, f)
      else InL1(c, full, f) && !InL1(Step(cfg, c, op), full, f)
    case GetOp(p, key, _, now) => !cfg.hasL2 && FullKey(cfg.space, p, key) == full && f.at + f.ttl <= now
    case ClearOp(_) => false
  }

  /** The prune of this put removed the fact from the second level. */
  ghost predicate Removed2(cfg: Config, c: Cache, op: Op, full: string, f: Fact)
    requires ValidConfig(cfg) && op.PutOp?
  {
    && cfg.hasL2
    && Entry(full, Record(f.value, f.at + f.ttl)) in Stowed(cfg, c.l2, op.p, op.key, op.value, op.ttl, op.now)
    && Entry(full, Record(f.value, f.at + f.ttl)) !in CachePut(cfg, c, op.p, op.key, op.value, op.ttl, op.now).l2
  }

  ghost predicate Shaped(c: Cache) {
    WellKept(c.l1) && Sorted(c.l2)
  }

  lemma StepShaped(cfg: Config, c: Cache, op: Op)
    requires ValidConfig(cfg) && ValidOp(op) && Shaped(c)
    ensures Shaped(Step(cfg, c, op))
  {
    hide FullKey, PartitionPrefix, SpacePrefix, Insert, Sorted, Without, Pruned, Fetch, WellKept, SharedSlots.Get, SharedSlots.Put,
      Clear;
    match op
    case GetOp(p, key, room, now) =>
      var full := FullKey(cfg.space, p, key);
      GetOutcome(c.l1, p, full, room, now);
      var d := c.(l1 := SharedSlots.Get(c.l1, p, full, room, now).level);
      var second := Fetch(d.l2, full, room, now);
      if second.Some? {
        L1PutOutcome(d.l1, d.tally, p, full, second.value, now + cfg.ttl[p], cfg.maxEntries[p], cfg.l1Bytes);
      }
    case PutOp(p, key, value, ttl, now) =>
      var full := FullKey(cfg.space, p, key);
      L1PutOutcome(c.l1, c.tally, p, full, value, now + ttl, cfg.maxEntries[p], cfg.l1Bytes);
      InsertStaysSorted(c.l2, full, Record(value, now + ttl));
      NamespacePassRemoves(Stowed(cfg, c.l2, p, key, value, ttl, now), PartitionPrefix(cfg.space, p), SpacePrefix(cfg.space),
                           now, cfg.maxEntries[p], cfg.l2Bytes);
    case ClearOp(which) =>
      ClearOutcome(c.l1, which);
      StaysSorted(c.l2, Everything(if which < 0 then SpacePrefix(cfg.space) else PartitionPrefix(cfg.space, which)));
  }

  lemma {:induction false} RunShaped(cfg: Config, ops: seq<Op>, n: nat)
    requires ValidRun(cfg, ops) && n <= |ops|
    ensures Shaped(CacheAfter(cfg, ops, n))
  {
    hide Step, Shaped;
    if n > 0 {
      RunShaped(cfg, ops, n - 1);
      StepShaped(cfg, CacheAfter(cfg, ops, n - 1), ops[n - 1]);
    } else {
      EmptyShaped(cfg, ops);
    }
  }

  lemma EmptyShaped(cfg: Config, ops: seq<Op>)
    requires ValidRun(cfg, ops)
    ensures Shaped(CacheAfter(cfg, ops, 0))
  {
  }

  lemma {:induction false} RunFiled(cfg: Config, ops: seq<Op>, n: nat)
    requires ValidRun(cfg, ops) && n <= |ops|
    ensures FactsFiled(cfg, MapAfter(cfg, ops, n))
  {
    hide FullKey;
    if n > 0 {
      RunFiled(cfg, ops, n - 1);
    }
  }

  /** A fact that was held before a put of another key is held after it, or was lost by it. */
  lemma PutHolds(cfg: Config, ops: seq<Op>, j: nat, full: string, f: Fact)
    requires ValidRun(cfg, ops) && j < |ops| && ops[j].PutOp? && Shaped(CacheAfter(cfg, ops, j))
    requires cfg.enabled[ops[j].p] && ops[j].ttl != 0
    requires var own := FullKey(cfg.space, ops[j].p, ops[j].key);
             if own == full then f == Fact(ops[j].p, ops[j].key, ops[j].value, ops[j].now, ops[j].ttl)
             else Held(cfg, CacheAfter(cfg, ops, j), full, f)
    ensures Held(cfg, Step(cfg, CacheAfter(cfg, ops, j), ops[j]), full, f) || LostAt(cfg, ops, j, full, f)
  {
    hide FullKey, Insert, Pruned, PartitionPrefix, SpacePrefix, CacheAfter, WellKept, Sorted;
    var c, op := CacheAfter(cfg, ops, j), ops[j];
    var own := FullKey(cfg.space, op.p, op.key);
    if cfg.hasL2 {
      InsertReplaces(c.l2, own, Record(op.value, op.now + op.ttl));
    } else if own == full && Accepts(full, op.value, cfg.l1Bytes) {
      PutIsLeastRecentlyUsed(c.l1, c.tally, op.p, full, op.value, op.now + op.ttl, cfg.maxEntries[op.p], cfg.l1Bytes) by {
        assert WellKept(c.l1);
        KeptParts(c.l1);
      }
      var k := Target(c.l1.slots, op.p, full, cfg.maxEntries[op.p]);
      assert Shows(Step(cfg, c, op).l1.slots[k], full, f);
    }
  }

  lemma KeptParts(l: Level1)
    requires WellKept(l)
    ensures 0 < |l.slots| && UniqueKeys(l.slots) && DistinctTicks(l)
  {
  }

  /** A fact of another partition survives a clear. */
  lemma ClearHolds(cfg: Config, c: Cache, which: int, full: string, f: Fact)
    requires ValidConfig(cfg) && which < PARTITIONS && full == FullKey(cfg.space, f.p, f.key) && 0 <= which != f.p
    requires Held(cfg, c, full, f)
    ensures Held(cfg, CacheClear(cfg, c, which), full, f)
  {
    hide FullKey, PartitionPrefix, SpacePrefix, Without;
    if cfg.hasL2 {
      OwnScan(cfg.space, which, f.p, f.key);
      WithoutKeeps(c.l2, Everything(PartitionPrefix(cfg.space, which)));
    } else {
      var i :| 0 <= i < |c.l1.slots| && Shows(c.l1.slots[i], full, f);
      assert Shows(CacheClear(cfg, c, which).l1.slots[i], full, f);
    }
  }

  /** A read loses nothing but what has expired. */
  lemma GetHolds(cfg: Config, c: Cache, p: Partition, key: string, room: nat, now: nat, full: string, f: Fact)
    requires ValidConfig(cfg) && Held(cfg, c, full, f)
    requires FullKey(cfg.space, p, key) == full && !cfg.hasL2 ==> now < f.at + f.ttl
    ensures Held(cfg, CacheGet(cfg, c, p, key, room, now).cache, full, f)
  {
    hide FullKey, Fetch, SharedSlots.Lookup;
    if cfg.hasL2 {
      GetKeepsL2(cfg, c, p, key, room, now);
    } else {
      var i :| 0 <= i < |c.l1.slots| && Shows(c.l1.slots[i], full, f);
      assert Shows(CacheGet(cfg, c, p, key, room, now).cache.l1.slots[i], full, f);
    }
  }

  lemma GetKeepsL2(cfg: Config, c: Cache, p: Partition, key: string, room: nat, now: nat)
    requires ValidConfig(cfg)
    ensures CacheGet(cfg, c, p, key, room, now).cache.l2 == c.l2
  {
    hide FullKey, Fetch, SharedSlots.Get, SharedSlots.Put;
  }

  /** In every run, what has been put last and not been cleared since is held, or some operation lost it. */
  lemma {:induction false} HeldOrLost(cfg: Config, ops: seq<Op>, n: nat, full: string)
    requires ValidRun(cfg, ops) && n <= |ops| && full in MapAfter(cfg, ops, n)
    ensures var f := MapAfter(cfg, ops, n)[full];
            Held(cfg, CacheAfter(cfg, ops, n), full, f) || exists j :: 0 <= j < n && LostAt(cfg, ops, j, full, f)
  {
    hide FullKey, Held, LostAt, CacheGet, CachePut, CacheClear, Shaped;
    var f, op := MapAfter(cfg, ops, n)[full], ops[n - 1];
    var c := CacheAfter(cfg, ops, n - 1);
    RunShaped(cfg, ops, n - 1);
    RunFiled(cfg, ops, n);
    var own := op.PutOp? && cfg.enabled[op.p] && op.ttl != 0 && FullKey(cfg.space, op.p, op.key) == full;
    if !own {
      assert full in MapAfter(cfg, ops, n - 1) && MapAfter(cfg, ops, n - 1)[full] == f;
      HeldOrLost(cfg, ops, n - 1, full);
    }
    if own || Held(cfg, c, full, f) {
      HeldStep(cfg, ops, n - 1, full, f);
    }
  }

  lemma HeldStep(cfg: Config, ops: seq<Op>, j: nat, full: string, f: Fact)
    requires ValidRun(cfg, ops) && j < |ops| && Shaped(CacheAfter(cfg, ops, j))
    requires full in MapAfter(cfg, ops, j + 1) && MapAfter(cfg, ops, j + 1)[full] == f
    requires full == FullKey(cfg.space, f.p, f.key)
    requires (ops[j].PutOp? && cfg.enabled[ops[j].p] && ops[j].ttl != 0 && FullKey(cfg.space, ops[j].p, ops[j].key) == full)
             || (Held(cfg, CacheAfter(cfg, ops, j), full, f)
                 && full in MapAfter(cfg, ops, j) && MapAfter(cfg, ops, j)[full] == f)
    ensures Held(cfg, CacheAfter(cfg, ops, j + 1), full, f) || LostAt(cfg, ops, j, full, f)
  {
    hide FullKey, Held, CacheClear, CachePut, CacheGet, Shaped, InL1, Removed2, Accepts;
    var c := CacheAfter(cfg, ops, j);
    assert CacheAfter(cfg, ops, j + 1) == Step(cfg, c, ops[j]);
    match ops[j]
    case GetOp(p, key, room, now) =>
      if !(FullKey(cfg.space, p, key) == full && !cfg.hasL2 && f.at + f.ttl <= now) {
        GetHolds(cfg, c, p, key, room, now, full, f);
      }
    case PutOp(p, key, value, ttl, now) =>
      if cfg.enabled[p] && ttl != 0 {
        PutHolds(cfg, ops, j, full, f);
      } else {
        NoPut(cfg, c, p, key, value, ttl, now);
      }
    case ClearOp(which) =>
      ClearHolds(cfg, c, which, full, f);
  }

  lemma NoPut(cfg: Config, c: Cache, p: Partition, key: string, value: seq<Byte>, ttl: nat, now: nat)
    requires ValidConfig(cfg) && (!cfg.enabled[p] || ttl == 0)
    ensures CachePut(cfg, c, p, key, value, ttl, now) == c
  {
  }

  /** A fact that is held is read. */
  lemma HeldIsRead(cfg: Config, c: Cache, p: Partition, key: string, room: nat, now: nat, f: Fact)
    requires ValidConfig(cfg) && Shaped(c) && cfg.enabled[p] && f.p == p && f.key == key
    requires Held(cfg, c, FullKey(cfg.space, p, key), f) && now < f.at + f.ttl && |f.value| <= room
    ensures CacheGet(cfg, c, p, key, room, now).value.Some?
  {
    hide FullKey, Sorted, Fetch;
    var full := FullKey(cfg.space, p, key);
    if cfg.hasL2 {
      FetchOfEntry(c.l2, full, f.value, f.at + f.ttl, room, now);
    } else {
      var i :| 0 <= i < |c.l1.slots| && Shows(c.l1.slots[i], full, f);
      FoundWhere(c.l1.slots, i);
    }
  }

  /** Main theorem: in every run of reads, puts and clears, a read of an enabled partition that misses has a reason: no put
      of its key is left uncleared, or the last one has lived its time, or is too long for the reader, or some operation
      since refused, evicted or pruned it. */
  lemma MissHasReason(cfg: Config, ops: seq<Op>, n: nat)
    requires ValidRun(cfg, ops) && n < |ops| && ops[n].GetOp? && cfg.enabled[ops[n].p]
    requires var op := ops[n];
             CacheGet(cfg, CacheAfter(cfg, ops, n), op.p, op.key, op.room, op.now).value == None
    ensures var op, m := ops[n], MapAfter(cfg, ops, n);
            var full := FullKey(cfg.space, op.p, op.key);
            full !in m || m[full].at + m[full].ttl <= op.now || |m[full].value| > op.room
            || exists j :: 0 <= j < n && LostAt(cfg, ops, j, full, m[full])
  {
    hide FullKey, Held, LostAt, CacheGet, CacheAfter, MapAfter, Shaped;
    var op, m, full := ops[n], MapAfter(cfg, ops, n), FullKey(cfg.space, ops[n].p, ops[n].key);
    if full in m && op.now < m[full].at + m[full].ttl && |m[full].value| <= op.room {
      HeldOrLost(cfg, ops, n, full);
      RunShaped(cfg, ops, n);
      RunFiled(cfg, ops, n);
      FullKeyInjective(cfg.space, op.p, op.key, m[full].p, m[full].key);
      if Held(cfg, CacheAfter(cfg, ops, n), full, m[full]) {
        HeldIsRead(cfg, CacheAfter(cfg, ops, n), op.p, op.key, op.room, op.now, m[full]);
      }
    }
  }

  /** The second level is only believed if the entry carries the magic number, the length of its payload, a matching checksum
      and a deadline that has not passed. */
  lemma OnlySoundEntriesAreRead(l2: seq<Entry>, key: string, room: nat, now: nat)
    requires Fetch(l2, key, room, now).Some?
    ensures exists e :: e in l2 && e.key == key && e.value.Value? && e.value.magic == 0x42414348
                        && e.value.length == |e.value.payload| <= room && e.value.checksum == Hash(e.value.payload)
                        && e.value.expires > now && e.value.payload == Fetch(l2, key, room, now).value
  {
    FindHit(l2, key);
    assert Entry(key, Find(l2, key).value) in l2;
  }

  /** A partition that is switched off neither stores nor serves, and a lifetime of zero stores nothing. */
  lemma DisabledIsInert(cfg: Config, c: Cache, p: Partition, key: string, value: seq<Byte>, ttl: nat, room: nat, now: nat)
    requires ValidConfig(cfg)
    ensures !cfg.enabled[p] ==> CacheGet(cfg, c, p, key, room, now) == TwoLevelCache.Lookup(c, None)
    ensures !cfg.enabled[p] || ttl == 0 ==> CachePut(cfg, c, p, key, value, ttl, now) == c
  {
  }
}
