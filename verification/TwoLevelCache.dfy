/** The two cache levels together: read-through with promotion, write-through, clearing and pruning, compared with a
    plain map. */
module TwoLevelCache {
  import opened Fnv
  import opened Wrappers
  import opened SharedSlots
  import opened OrderedStore
  import opened CacheKeys

  /** Times and lifetimes are in milliseconds; one entry per partition in each list. */
  datatype Config = Config(space: string, enabled: seq<bool>, ttl: seq<nat>, maxEntries: seq<nat>,
                           l1Bytes: nat, l2Bytes: nat, hasL2: bool)

  predicate ValidConfig(cfg: Config) {
    |cfg.enabled| == |cfg.ttl| == |cfg.maxEntries| == PARTITIONS
    && forall p :: 0 <= p < PARTITIONS ==> 0 < cfg.maxEntries[p]
  }

  datatype Cache = Cache(l1: Level1, tally: Tally, l2: seq<Entry>)

  /** What the second level stores for a value. */
  function Record(value: seq<Byte>, expires: nat): Value {
    Value(MAGIC, |value|, expires, Hash(value), value)
  }

  /** A lookup in the second level believes an entry only if magic, length, expiry and checksum are right. */
  function Fetch(l2: seq<Entry>, key: string, room: nat, now: nat): Option<seq<Byte>> {
    match Find(l2, key)
    case Some(Value(magic, length, expires, checksum, payload)) =>
      if magic == MAGIC && length == |payload| && expires > now && |payload| <= room && checksum == Hash(payload)
      then Some(payload) else None
    case _ => None
  }

  datatype Lookup = Lookup(cache: Cache, value: Option<seq<Byte>>)

  function L1Put(cfg: Config, c: Cache, p: Partition, key: string, value: seq<Byte>, expires: nat): Cache
    requires ValidConfig(cfg)
  {
    var r := SharedSlots.Put(c.l1, c.tally, p, key, value, expires, cfg.maxEntries[p], cfg.l1Bytes);
    c.(l1 := r.level, tally := r.tally)
  }

  function CacheGet(cfg: Config, c: Cache, p: Partition, key: string, room: nat, now: nat): Lookup
    requires ValidConfig(cfg)
  {
    if !cfg.enabled[p] then Lookup(c, None)
    else
      var full := FullKey(cfg.space, p, key);
      var first := SharedSlots.Get(c.l1, p, full, room, now);
      var d := c.(l1 := first.level);
      if first.value.Some? then Lookup(d, first.value)
      else if !cfg.hasL2 then Lookup(d, None)
      else
        var second := Fetch(d.l2, full, room, now);
        if second.None? then Lookup(d, None)
        else Lookup(L1Put(cfg, d, p, full, second.value, now + cfg.ttl[p]), second)
  }

  function CachePut(cfg: Config, c: Cache, p: Partition, key: string, value: seq<Byte>, ttl: nat, now: nat): Cache
    requires ValidConfig(cfg)
  {
    if !cfg.enabled[p] || ttl == 0 then c
    else
      var full := FullKey(cfg.space, p, key);
      var d := L1Put(cfg, c, p, full, value, now + ttl);
      if !cfg.hasL2 then d
      else
        var stored := if |value| > VALUE_MAX then d.l2 else Insert(d.l2, full, Record(value, now + ttl));
        d.(l2 := Pruned(stored, PartitionPrefix(cfg.space, p), SpacePrefix(cfg.space), now, cfg.maxEntries[p], cfg.l2Bytes))
  }

  function CacheClear(cfg: Config, c: Cache, p: int): Cache
    requires p < PARTITIONS
  {
    var d := c.(l1 := Clear(c.l1, p));
    if !cfg.hasL2 then d
    else
      var prefix := if p < 0 then SpacePrefix(cfg.space) else PartitionPrefix(cfg.space, p);
      d.(l2 := Without(d.l2, Everything(prefix)))
  }

  datatype Op =
    | GetOp(p: Partition, key: string, room: nat, now: nat)
    | PutOp(p: Partition, key: string, value: seq<Byte>, ttl: nat, now: nat)
    | ClearOp(which: int)

  /** A put as the plain map remembers it. */
  datatype Fact = Fact(p: Partition, key: string, value: seq<Byte>, at: nat, ttl: nat)

  predicate ValidOp(op: Op) {
    op.ClearOp? ==> op.which < PARTITIONS
  }

  function Step(cfg: Config, c: Cache, op: Op): Cache
    requires ValidConfig(cfg) && ValidOp(op)
  {
    match op
    case GetOp(p, key, room, now) => CacheGet(cfg, c, p, key, room, now).cache
    case PutOp(p, key, value, ttl, now) => CachePut(cfg, c, p, key, value, ttl, now)
    case ClearOp(which) => CacheClear(cfg, c, which)
  }

  /** The plain map: a put sets its key, a clear removes the keys of its partition, nothing else changes it. */
  function Remember(cfg: Config, m: map<string, Fact>, op: Op): map<string, Fact>
    requires ValidConfig(cfg)
  {
    match op
    case GetOp(_, _, _, _) => m
    case PutOp(p, key, value, ttl, now) =>
      if !cfg.enabled[p] || ttl == 0 then m else m[FullKey(cfg.space, p, key) := Fact(p, key, value, now, ttl)]
    case ClearOp(which) => map k | k in m && !(which < 0 || m[k].p == which) :: m[k]
  }

  /** How long a copy promoted from the second level may outlive its put. */
  function Extra(cfg: Config, p: Partition): nat
    requires ValidConfig(cfg)
  {
    if cfg.hasL2 then cfg.ttl[p] else 0
  }

  ghost predicate FactsFiled(cfg: Config, m: map<string, Fact>) {
    forall k :: k in m ==> k == FullKey(cfg.space, m[k].p, m[k].key)
  }

  /** A slot of the first level shows the latest fact of its key. */
  predicate SlotAgrees(cfg: Config, m: map<string, Fact>, s: Slot)
    requires ValidConfig(cfg)
  {
    s.key in m && s.partition == m[s.key].p && s.value == m[s.key].value
    && s.expires <= m[s.key].at + m[s.key].ttl + Extra(cfg, s.partition)
  }

  predicate EntryAgrees(m: map<string, Fact>, e: Entry) {
    e.key in m && e.value == Record(m[e.key].value, m[e.key].at + m[e.key].ttl)
  }

  ghost predicate SlotsAgree(cfg: Config, m: map<string, Fact>, t: seq<Slot>)
    requires ValidConfig(cfg)
  {
    forall i :: 0 <= i < |t| && t[i].used ==> SlotAgrees(cfg, m, t[i])
  }

  ghost predicate EntriesAgree(m: map<string, Fact>, l2: seq<Entry>) {
    forall e :: e in l2 ==> EntryAgrees(m, e)
  }

  ghost predicate WellKept(l: Level1) {
    0 < |l.slots| && UniqueKeys(l.slots) && DistinctTicks(l)
  }

  ghost predicate Agree(cfg: Config, m: map<string, Fact>, c: Cache)
    requires ValidConfig(cfg)
  {
    WellKept(c.l1) && FactsFiled(cfg, m) && SlotsAgree(cfg, m, c.l1.slots) && EntriesAgree(m, c.l2)
    && (!cfg.hasL2 ==> c.l2 == [])
  }

  predicate HoldsKey(t: seq<Slot>, key: string) {
    exists i :: 0 <= i < |t| && t[i].used && t[i].key == key
  }

  predicate StoresKey(l2: seq<Entry>, key: string) {
    exists e :: e in l2 && e.key == key
  }

  /** Does every level that holds an older value of the key take this put? A level refuses a value that is too long
      for it and then keeps what it has. */
  predicate Coherent(cfg: Config, c: Cache, op: Op)
    requires ValidConfig(cfg) && op.PutOp?
  {
    var full := FullKey(cfg.space, op.p, op.key);
    && (HoldsKey(c.l1.slots, full) ==> Accepts(full, op.value, cfg.l1Bytes))
    && (StoresKey(c.l2, full) ==> |op.value| <= VALUE_MAX)
  }

  /** What any put does to the first level: entries of other keys stay as they are or go, and the key itself has the
      new entry if the put is taken and is left alone if it is not. */
  lemma L1PutOutcome(l: Level1, c: Tally, p: Partition, key: string, value: seq<Byte>, expires: nat, maxEntries: nat,
                     maxBytes: nat)
    requires WellKept(l) && 0 < maxEntries
    ensures var r := SharedSlots.Put(l, c, p, key, value, expires, maxEntries, maxBytes).level;
            && WellKept(r) && |r.slots| == |l.slots|
            && (!Accepts(key, value, maxBytes) ==> r == l)
            && (forall i :: 0 <= i < |r.slots| && r.slots[i].used ==>
                  r.slots[i] == l.slots[i] || r.slots[i] == Stored(p, key, value, expires, r.tick))
            && (Accepts(key, value, maxBytes) ==>
                  forall i :: 0 <= i < |r.slots| && r.slots[i].used && r.slots[i].key == key ==>
                    r.slots[i] == Stored(p, key, value, expires, r.tick))
  {
    hide SharedSlots.Put, LeastRecent, NoneToSpare, Target, DistinctTicks;
    if Accepts(key, value, maxBytes) {
      PutIsLeastRecentlyUsed(l, c, p, key, value, expires, maxEntries, maxBytes);
      TargetIsSound(l.slots, p, key, maxEntries);
      var k := Target(l.slots, p, key, maxEntries);
      var u := SharedSlots.Put(l, c, p, key, value, expires, maxEntries, maxBytes).level.slots;
      forall i | 0 <= i < |u| && i != k ensures u[i] == l.slots[i] || u[i] == Dropped(l.slots[i]) {
        assert u[k := l.slots[k]][i] == u[i];
      }
    } else {
      RefusedPut(l, c, p, key, value, expires, maxEntries, maxBytes);
    }
  }

  lemma RefusedPut(l: Level1, c: Tally, p: Partition, key: string, value: seq<Byte>, expires: nat, maxEntries: nat,
                   maxBytes: nat)
    requires !Accepts(key, value, maxBytes)
    ensures SharedSlots.Put(l, c, p, key, value, expires, maxEntries, maxBytes).level == l
  {
  }

  /** Finding an entry in the second level. */
  lemma {:induction false} FindHit(l2: seq<Entry>, key: string)
    ensures Find(l2, key).None? ==> !StoresKey(l2, key)
  {
    if l2 != [] {
      FindHit(l2[..|l2| - 1], key);
      assert l2 == l2[..|l2| - 1] + [l2[|l2| - 1]];
    }
  }

  /** Writing a fact through the first level keeps it in agreement, provided an older entry of the key is replaced. */
  lemma L1PutAgrees(cfg: Config, m: map<string, Fact>, l: Level1, c: Tally, p: Partition, key: string, value: seq<Byte>,
                    expires: nat, m': map<string, Fact>)
    requires ValidConfig(cfg) && WellKept(l) && SlotsAgree(cfg, m, l.slots)
    requires key in m' && m'[key].p == p && m'[key].value == value
    requires expires <= m'[key].at + m'[key].ttl + Extra(cfg, p)
    requires forall k :: k in m && k != key ==> k in m' && m'[k] == m[k]
    requires (key in m && m'[key] == m[key]) || (HoldsKey(l.slots, key) ==> Accepts(key, value, cfg.l1Bytes))
    ensures var r := SharedSlots.Put(l, c, p, key, value, expires, cfg.maxEntries[p], cfg.l1Bytes).level;
            WellKept(r) && SlotsAgree(cfg, m', r.slots)
  {
    hide SharedSlots.Put, WellKept, Accepts;
    L1PutOutcome(l, c, p, key, value, expires, cfg.maxEntries[p], cfg.l1Bytes);
    var r := SharedSlots.Put(l, c, p, key, value, expires, cfg.maxEntries[p], cfg.l1Bytes).level;
    forall i | 0 <= i < |r.slots| && r.slots[i].used ensures SlotAgrees(cfg, m', r.slots[i]) {
      if r.slots[i] == l.slots[i] {
        assert SlotAgrees(cfg, m, l.slots[i]);
        assert l.slots[i].key == key ==> HoldsKey(l.slots, key);
      }
    }
  }

  /** A lookup in the first level keeps it in agreement; a hit shows the latest fact, in time. */
  lemma L1GetAgrees(cfg: Config, m: map<string, Fact>, l: Level1, p: Partition, key: string, room: nat, now: nat)
    requires ValidConfig(cfg) && WellKept(l) && SlotsAgree(cfg, m, l.slots)
    ensures var r := SharedSlots.Get(l, p, key, room, now);
            && WellKept(r.level) && SlotsAgree(cfg, m, r.level.slots)
            && (r.value.Some? ==> key in m && r.value.value == m[key].value
                                  && now < m[key].at + m[key].ttl + Extra(cfg, p))
  {
    var k := SharedSlots.Lookup(l.slots, p, key, |l.slots|);
    if k >= 0 {
      assert SlotAgrees(cfg, m, l.slots[k]);
    }
  }

  /** Whatever a prune removes, what is left was there before. */
  lemma PrunedIsPart(s: seq<Entry>, partition: string, space: string, now: nat, maxEntries: nat, maxBytes: nat)
    ensures forall e :: e in Pruned(s, partition, space, now, maxEntries, maxBytes) ==> e in s
  {
    hide Without, Soonest, CountPrefix, SizePrefix;
    var live := Without(s, Dead(partition, now));
    WithoutKeeps(s, Dead(partition, now));
    RelievedIsPart(live, partition, CountPrefix(live, partition) > maxEntries);
    var t := PrunePartition(s, partition, now, maxEntries);
    RelievedIsPart(t, space, SizePrefix(t, space) > maxBytes);
  }

  lemma RelievedIsPart(s: seq<Entry>, prefix: string, exceeded: bool)
    ensures forall e :: e in Relieve(s, prefix, exceeded) ==> e in s
  {
    hide Without, Soonest;
    var victim := Soonest(s, prefix);
    if victim.Some? {
      WithoutKeeps(s, Exactly(victim.value.key));
    }
  }

  /** A read keeps the cache in agreement with the plain map, and what it returns is the value of the latest put of
      the key that has not been cleared since, at a time when that put, or its promoted copy, was still good. */
  lemma GetAgrees(cfg: Config, m: map<string, Fact>, c: Cache, p: Partition, key: string, room: nat, now: nat)
    requires ValidConfig(cfg) && Agree(cfg, m, c)
    ensures var r, full := CacheGet(cfg, c, p, key, room, now), FullKey(cfg.space, p, key);
            && Agree(cfg, m, r.cache)
            && (r.value.Some? ==> full in m && r.value.value == m[full].value
                                  && now < m[full].at + m[full].ttl + Extra(cfg, p))
  {
    hide SharedSlots.Get, SharedSlots.Put, WellKept, SlotsAgree, FullKey;
    if cfg.enabled[p] {
      var full := FullKey(cfg.space, p, key);
      L1GetAgrees(cfg, m, c.l1, p, full, room, now);
      var first := SharedSlots.Get(c.l1, p, full, room, now);
      if first.value.None? && cfg.hasL2 {
        FetchAgrees(m, c.l2, full, room, now);
        var second := Fetch(c.l2, full, room, now);
        if second.Some? {
          OwnFact(cfg, m, p, key);
          L1PutAgrees(cfg, m, first.level, c.tally, p, full, second.value, now + cfg.ttl[p], m);
        }
      }
    }
  }

  lemma OwnFact(cfg: Config, m: map<string, Fact>, p: Partition, key: string)
    requires FactsFiled(cfg, m) && FullKey(cfg.space, p, key) in m
    ensures m[FullKey(cfg.space, p, key)].p == p
  {
    var fact := m[FullKey(cfg.space, p, key)];
    FullKeyInjective(cfg.space, p, key, fact.p, fact.key);
  }

  lemma FetchAgrees(m: map<string, Fact>, l2: seq<Entry>, key: string, room: nat, now: nat)
    requires EntriesAgree(m, l2)
    ensures var r := Fetch(l2, key, room, now);
            r.Some? ==> key in m && r.value == m[key].value && now < m[key].at + m[key].ttl
  {
    var found := Find(l2, key);
    if found.Some? {
      assert EntryAgrees(m, Entry(key, found.value));
    }
  }

  /** A put that no level refuses while holding an older value keeps the agreement. */
  lemma PutAgrees(cfg: Config, m: map<string, Fact>, c: Cache, op: Op)
    requires ValidConfig(cfg) && Agree(cfg, m, c) && op.PutOp? && Coherent(cfg, c, op)
    ensures Agree(cfg, Remember(cfg, m, op), Step(cfg, c, op))
  {
    hide SharedSlots.Put, WellKept, SlotsAgree, FullKey, Insert, Pruned, EntriesAgree;
    if cfg.enabled[op.p] && op.ttl != 0 {
      var full, m' := FullKey(cfg.space, op.p, op.key), Remember(cfg, m, op);
      L1PutAgrees(cfg, m, c.l1, c.tally, op.p, full, op.value, op.now + op.ttl, m');
      if cfg.hasL2 {
        var stored := if |op.value| > VALUE_MAX then c.l2 else Insert(c.l2, full, Record(op.value, op.now + op.ttl));
        StoredAgrees(m, c.l2, full, Fact(op.p, op.key, op.value, op.now, op.ttl));
        var pruned := Pruned(stored, PartitionPrefix(cfg.space, op.p), SpacePrefix(cfg.space), op.now,
                             cfg.maxEntries[op.p], cfg.l2Bytes);
        PrunedIsPart(stored, PartitionPrefix(cfg.space, op.p), SpacePrefix(cfg.space), op.now, cfg.maxEntries[op.p],
                     cfg.l2Bytes);
        PartAgrees(m', stored, pruned);
      } else {
        PartAgrees(m', [], []);
      }
    }
  }

  lemma StoredAgrees(m: map<string, Fact>, l2: seq<Entry>, full: string, fact: Fact)
    requires EntriesAgree(m, l2) && (StoresKey(l2, full) ==> |fact.value| <= VALUE_MAX)
    ensures EntriesAgree(m[full := fact], if |fact.value| > VALUE_MAX then l2
                                          else Insert(l2, full, Record(fact.value, fact.at + fact.ttl)))
  {
    hide Insert;
    InsertReplaces(l2, full, Record(fact.value, fact.at + fact.ttl));
    forall e | e in l2 && e.key != full ensures EntryAgrees(m[full := fact], e) {
      assert EntryAgrees(m, e);
    }
  }

  lemma PartAgrees(m: map<string, Fact>, s: seq<Entry>, t: seq<Entry>)
    requires (EntriesAgree(m, s) || s == []) && forall e :: e in t ==> e in s
    ensures EntriesAgree(m, t)
  {
  }

  /** Clearing a partition, or everything, on both levels. */
  lemma ClearAgrees(cfg: Config, m: map<string, Fact>, c: Cache, which: int)
    requires ValidConfig(cfg) && Agree(cfg, m, c) && which < PARTITIONS
    ensures Agree(cfg, Remember(cfg, m, ClearOp(which)), CacheClear(cfg, c, which))
  {
    hide FullKey, Without, SpacePrefix, PartitionPrefix;
    var m' := Remember(cfg, m, ClearOp(which));
    ClearSlotsAgrees(cfg, m, c.l1, which);
    if cfg.hasL2 {
      var prefix := if which < 0 then SpacePrefix(cfg.space) else PartitionPrefix(cfg.space, which);
      WithoutKeeps(c.l2, Everything(prefix));
      forall e | e in Without(c.l2, Everything(prefix)) ensures EntryAgrees(m', e) {
        assert EntryAgrees(m, e);
        OwnScan(cfg.space, which, m[e.key].p, m[e.key].key);
      }
    }
  }

  lemma ClearSlotsAgrees(cfg: Config, m: map<string, Fact>, l: Level1, which: int)
    requires ValidConfig(cfg) && WellKept(l) && SlotsAgree(cfg, m, l.slots) && which < PARTITIONS
    ensures var r := Clear(l, which);
            WellKept(r) && SlotsAgree(cfg, Remember(cfg, m, ClearOp(which)), r.slots)
  {
    var r := Clear(l, which);
    assert forall i :: 0 <= i < |r.slots| && r.slots[i].used ==>
             r.slots[i] == l.slots[i] && SlotAgrees(cfg, m, l.slots[i]) && !(which < 0 || l.slots[i].partition == which);
  }

  /** Within its own namespace a clear always meets the right keys. */
  lemma OwnScan(space: string, which: int, p: Partition, key: string)
    requires which < PARTITIONS
    ensures var prefix := if which < 0 then SpacePrefix(space) else PartitionPrefix(space, which);
            HasPrefix(prefix, FullKey(space, p, key)) <==> which < 0 || which == p
  {
    hide Name, NoBar, SpacePrefix;
    var a := SpacePrefix(space);
    assert FullKey(space, p, key) == a + (Name(p) + BAR + key);
    if which >= 0 {
      NamesHaveNoBar(which, p);
      NamesHaveNoBar(p, which);
      assert PartitionPrefix(space, which) == a + (Name(which) + BAR + "");
      PrefixDrops(a, Name(which) + BAR + "", Name(p) + BAR + key);
      FieldsMatch(Name(which), Name(p), "", key);
    } else {
      assert a == a + "";
      PrefixDrops(a, "", Name(p) + BAR + key);
    }
  }

  /** Cache and plain map after the first `n` operations of a run that starts with both empty. */
  function CacheAfter(cfg: Config, ops: seq<Op>, n: nat): Cache
    requires ValidConfig(cfg) && n <= |ops| && forall i :: 0 <= i < |ops| ==> ValidOp(ops[i])
  {
    if n == 0 then Cache(Level1(seq(SLOTS, _ => BLANK), 0), Tally(0, 0), [])
    else Step(cfg, CacheAfter(cfg, ops, n - 1), ops[n - 1])
  }

  function MapAfter(cfg: Config, ops: seq<Op>, n: nat): map<string, Fact>
    requires ValidConfig(cfg) && n <= |ops|
  {
    if n == 0 then map[] else Remember(cfg, MapAfter(cfg, ops, n - 1), ops[n - 1])
  }

  ghost predicate CoherentRun(cfg: Config, ops: seq<Op>, n: nat)
    requires ValidConfig(cfg) && n <= |ops| && forall i :: 0 <= i < |ops| ==> ValidOp(ops[i])
  {
    forall i :: 0 <= i < n && ops[i].PutOp? ==> Coherent(cfg, CacheAfter(cfg, ops, i), ops[i])
  }

  lemma {:induction false} RunAgrees(cfg: Config, ops: seq<Op>, n: nat)
    requires ValidConfig(cfg) && n <= |ops| && forall i :: 0 <= i < |ops| ==> ValidOp(ops[i])
    requires CoherentRun(cfg, ops, n)
    ensures Agree(cfg, MapAfter(cfg, ops, n), CacheAfter(cfg, ops, n))
  {
    hide Agree, CacheGet, CachePut, CacheClear, Remember, Coherent;
    if n > 0 {
      RunAgrees(cfg, ops, n - 1);
      var c, m, op := CacheAfter(cfg, ops, n - 1), MapAfter(cfg, ops, n - 1), ops[n - 1];
      match op
      case GetOp(p, key, room, now) =>
        GetAgrees(cfg, m, c, p, key, room, now);
        ReadsRememberNothing(cfg, m, op);
      case PutOp(_, _, _, _, _) => PutAgrees(cfg, m, c, op);
      case ClearOp(which) => ClearAgrees(cfg, m, c, which);
    } else {
      EmptyAgrees(cfg);
    }
  }

  lemma ReadsRememberNothing(cfg: Config, m: map<string, Fact>, op: Op)
    requires ValidConfig(cfg) && op.GetOp?
    ensures Remember(cfg, m, op) == m
  {
  }

  lemma EmptyAgrees(cfg: Config)
    requires ValidConfig(cfg)
    ensures Agree(cfg, map[], Cache(Level1(seq(SLOTS, _ => BLANK), 0), Tally(0, 0), []))
  {
  }

  /** Main theorem: in every run of reads, writes and clears, whatever is evicted, expired, pruned or promoted on
      the way, a hit returns what the plain map holds for the key, and comes before the end of that put's lifetime
      plus the lifetime of a promoted copy (without a second level: before the end of the put's lifetime). No
      assumption is made about the clock. */
  lemma HitsAreLatestAndBounded(cfg: Config, ops: seq<Op>, n: nat)
    requires ValidConfig(cfg) && forall i :: 0 <= i < |ops| ==> ValidOp(ops[i])
    requires n < |ops| && ops[n].GetOp? && CoherentRun(cfg, ops, n)
    ensures var op, m := ops[n], MapAfter(cfg, ops, n);
            var r, full := CacheGet(cfg, CacheAfter(cfg, ops, n), op.p, op.key, op.room, op.now).value, FullKey(cfg.space, op.p, op.key);
            r.Some? ==> full in m && r.value == m[full].value && op.now < m[full].at + m[full].ttl + Extra(cfg, op.p)
  {
    hide Agree, CacheGet, CachePut, CacheClear, Remember, Coherent, FullKey, CacheAfter;
    RunAgrees(cfg, ops, n);
    GetAgrees(cfg, MapAfter(cfg, ops, n), CacheAfter(cfg, ops, n), ops[n].p, ops[n].key, ops[n].room, ops[n].now);
  }

  /** The first level holds an entry of the key that is still good at `now`. */
  predicate ServesKey(t: seq<Slot>, p: Partition, key: string, now: nat) {
    var k := SharedSlots.Lookup(t, p, key, |t|);
    k >= 0 && t[k].expires > now
  }

  /** Exactly when a put over a live first-level entry is safe: the next read shows anything but the old value if and
      only if the first level accepts the new one. A value too long for it leaves the old entry in place, even if
      the second level takes the new value. */
  lemma OldValueGoneIffAccepted(cfg: Config, m: map<string, Fact>, c: Cache, op: Op, room: nat)
    requires ValidConfig(cfg) && Agree(cfg, m, c) && op.PutOp? && cfg.enabled[op.p] && op.ttl != 0
    requires ServesKey(c.l1.slots, op.p, FullKey(cfg.space, op.p, op.key), op.now)
    requires var full := FullKey(cfg.space, op.p, op.key);
             full in m && m[full].value != op.value && |m[full].value| <= room
    ensures var full := FullKey(cfg.space, op.p, op.key);
            CacheGet(cfg, Step(cfg, c, op), op.p, op.key, room, op.now).value != Some(m[full].value)
            <==> Accepts(full, op.value, cfg.l1Bytes)
  {
    hide FullKey, Insert, Pruned, WellKept, SlotsAgree, EntriesAgree;
    var full := FullKey(cfg.space, op.p, op.key);
    if Accepts(full, op.value, cfg.l1Bytes) {
      PutAgrees(cfg, m, c, op);
      GetAgrees(cfg, Remember(cfg, m, op), Step(cfg, c, op), op.p, op.key, room, op.now);
    } else {
      RefusedPut(c.l1, c.tally, op.p, full, op.value, op.now + op.ttl, cfg.maxEntries[op.p], cfg.l1Bytes);
      ServedValue(cfg, m, c.l1.slots, op.p, full);
    }
  }

  lemma ServedValue(cfg: Config, m: map<string, Fact>, t: seq<Slot>, p: Partition, key: string)
    requires ValidConfig(cfg) && SlotsAgree(cfg, m, t) && SharedSlots.Lookup(t, p, key, |t|) >= 0
    ensures key in m && t[SharedSlots.Lookup(t, p, key, |t|)].value == m[key].value
  {
  }

  /** A run that shows it: a value is put, then one too long for the first level, and a read still shows the first. */
  function TooLong(p: Partition, key: string, first: seq<Byte>, second: seq<Byte>, room: nat, ttl: nat, now: nat): seq<Op> {
    [PutOp(p, key, first, ttl, now), PutOp(p, key, second, ttl, now), GetOp(p, key, room, now)]
  }

  lemma RefusedPutShowsOldValue(cfg: Config, p: Partition, key: string, first: seq<Byte>, second: seq<Byte>, room: nat,
                                ttl: nat, now: nat)
    requires ValidConfig(cfg) && cfg.enabled[p] && 0 < ttl && |first| <= room
    requires var full := FullKey(cfg.space, p, key);
             Accepts(full, first, cfg.l1Bytes) && !Accepts(full, second, cfg.l1Bytes)
    ensures var ops := TooLong(p, key, first, second, room, ttl, now);
            CacheGet(cfg, CacheAfter(cfg, ops, 2), p, key, room, now).value == Some(first)
  {
    hide FullKey, Insert, Pruned, WellKept, Accepts;
    var ops, full := TooLong(p, key, first, second, room, ttl, now), FullKey(cfg.space, p, key);
    var c0, c1 := CacheAfter(cfg, ops, 0), CacheAfter(cfg, ops, 1);
    assert c1 == CachePut(cfg, c0, p, key, first, ttl, now);
    assert CacheAfter(cfg, ops, 2) == CachePut(cfg, c1, p, key, second, ttl, now);
    EmptyAgrees(cfg);
    FirstPutServes(cfg, c0, p, full, first, now + ttl, now, room);
    RefusedPut(c1.l1, c1.tally, p, full, second, now + ttl, cfg.maxEntries[p], cfg.l1Bytes);
  }

  /** An accepted put is served by the first level. */
  lemma FirstPutServes(cfg: Config, c: Cache, p: Partition, full: string, value: seq<Byte>, expires: nat, now: nat, room: nat)
    requires ValidConfig(cfg) && WellKept(c.l1) && Accepts(full, value, cfg.l1Bytes) && now < expires && |value| <= room
    ensures SharedSlots.Get(L1Put(cfg, c, p, full, value, expires).l1, p, full, room, now).value == Some(value)
  {
    hide Accepts;
    var end := SharedSlots.Put(c.l1, c.tally, p, full, value, expires, cfg.maxEntries[p], cfg.l1Bytes).level;
    PutIsLeastRecentlyUsed(c.l1, c.tally, p, full, value, expires, cfg.maxEntries[p], cfg.l1Bytes);
    FoundWhere(end.slots, Target(c.l1.slots, p, full, cfg.maxEntries[p]));
  }

  lemma FoundWhere(t: seq<Slot>, k: nat)
    requires k < |t| && t[k].used && UniqueKeys(t)
    ensures SharedSlots.Lookup(t, t[k].partition, t[k].key, |t|) == k
  {
    var i := SharedSlots.Lookup(t, t[k].partition, t[k].key, |t|);
    assert i >= 0;
    assert t[i].key == t[k].key;
  }

  /** The checksum rejects every entry whose payload differs in one byte from the one it was made for. */
  lemma CorruptionIsRejected(l2: seq<Entry>, key: string, value: seq<Byte>, i: nat, b: Byte, expires: nat, room: nat, now: nat)
    requires i < |value| && b != value[i]
    requires Find(l2, key) == Some(Value(MAGIC, |value|, expires, Hash(value), value[i := b]))
    ensures Fetch(l2, key, room, now) == None
  {
    OneByteChanges(OFFSET_BASIS, value, i, b);
  }

  /** What is stored in the second level is what comes out of it, until it expires. */
  lemma StoredIsFetched(l2: seq<Entry>, key: string, value: seq<Byte>, expires: nat, room: nat, now: nat)
    requires Sorted(l2)
    ensures Fetch(Insert(l2, key, Record(value, expires)), key, room, now)
            == if expires > now && |value| <= room then Some(value) else None
  {
    hide Insert, Sorted;
    var e, s := Entry(key, Record(value, expires)), Insert(l2, key, Record(value, expires));
    InsertReplaces(l2, key, Record(value, expires));
    InsertStaysSorted(l2, key, Record(value, expires));
    assert e in s;
    FindHit(s, key);
    SortedKeysUnique(s, e, Entry(key, Find(s, key).value));
  }

  /** A lookup leaves every entry it does not drop as it is, its tick aside, and a hit shows one of them. */
  lemma GetOutcome(l: Level1, p: Partition, key: string, room: nat, now: nat)
    requires WellKept(l)
    ensures var r := SharedSlots.Get(l, p, key, room, now);
            && WellKept(r.level)
            && (forall i :: 0 <= i < |l.slots| && r.level.slots[i].used ==>
                  l.slots[i].used && r.level.slots[i] == l.slots[i].(touched := r.level.slots[i].touched))
            && (r.value.Some? ==> exists i :: 0 <= i < |l.slots| && l.slots[i].used && l.slots[i].partition == p
                                             && l.slots[i].key == key && l.slots[i].value == r.value.value
                                             && now < l.slots[i].expires)
  {
  }

  lemma ClearOutcome(l: Level1, which: int)
    requires WellKept(l)
    ensures var r := Clear(l, which);
            && WellKept(r)
            && forall i :: 0 <= i < |l.slots| && r.slots[i].used ==> r.slots[i] == l.slots[i]
  {
  }

  lemma L1PutKeepsL2(cfg: Config, c: Cache, p: Partition, key: string, value: seq<Byte>, expires: nat)
    requires ValidConfig(cfg)
    ensures L1Put(cfg, c, p, key, value, expires).l2 == c.l2
  {
  }
}
