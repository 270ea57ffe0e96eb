/** Read-after-write freshness of one client: a property read answered from the cache was fetched from the network
    after the client's most recent successful write. */
module ReadAfterWrite {
  import opened Fnv
  import opened Wrappers
  import opened SharedSlots
  import opened OrderedStore
  import opened CacheKeys
  import opened TwoLevelCache

  const STATE: Partition := 0
  const OBJECT: Partition := 1
  const OBJECT_LIST: Partition := 2
  const NEGATIVE: Partition := 5

  /** The partitions that answer property reads, or remember that one timed out. */
  predicate ServesReads(p: Partition) {
    p == STATE || p == OBJECT || p == OBJECT_LIST || p == NEGATIVE
  }

  /** What the network says to a property read. */
  datatype Answer = Value(bytes: seq<Byte>) | Timeout | Failure

  const EMPTY_DISCOVERY: string := "empty|"

  /** One call of the client. `room` is the size of the reply buffer. A property that is not cached has no partition; `Other` is any cache operation of
      device discovery, which has partitions of its own and notes empty results among the negative entries. */
  datatype Call =
    | Read(partition: Option<Partition>, key: string, refresh: bool, answer: Answer, room: nat, now: nat)
    | Write(acknowledged: bool)
    | Other(op: Op)

  predicate ValidCall(call: Call) {
    match call
    case Read(partition, _, _, _, _, _) => partition.Some? ==> ServesReads(partition.value) && partition.value != NEGATIVE
    case Write(_) => true
    case Other(op) => ValidOp(op) && (op.PutOp? && ServesReads(op.p) ==> op.p == NEGATIVE && EMPTY_DISCOVERY <= op.key)
  }

  datatype Outcome = Cached(value: seq<Byte>) | CachedTimeout | Fetched(value: seq<Byte>) | TimedOut | Failed | Done

  datatype Effect = Effect(cache: Cache, outcome: Outcome)

  function NegativeKey(key: string): string {
    "read|" + key
  }

  /** The read goes to the network, and what comes back is cached. */
  function Fetch(cfg: Config, c: Cache, call: Call): Effect
    requires ValidConfig(cfg) && call.Read?
  {
    match call.answer
    case Timeout => Effect(CachePut(cfg, c, NEGATIVE, NegativeKey(call.key), [1], cfg.ttl[NEGATIVE], call.now), TimedOut)
    case Failure => Effect(c, Failed)
    case Value(bytes) =>
      if call.partition.None? then Effect(c, Fetched(bytes))
      else
        var p := call.partition.value;
        Effect(CachePut(cfg, c, p, call.key, bytes, cfg.ttl[p], call.now), Fetched(bytes))
  }

  function Perform(cfg: Config, c: Cache, call: Call): Effect
    requires ValidConfig(cfg) && ValidCall(call)
  {
    match call
    case Read(partition, key, refresh, answer, room, now) =>
      if refresh then
        var d := if partition.Some? then CacheClear(cfg, c, partition.value) else c;
        Fetch(cfg, CacheClear(cfg, d, NEGATIVE), call)
      else
        var negative := CacheGet(cfg, c, NEGATIVE, NegativeKey(key), 1, now);
        if negative.value.Some? then Effect(negative.cache, CachedTimeout)
        else if partition.None? then Fetch(cfg, negative.cache, call)
        else
          var found := CacheGet(cfg, negative.cache, partition.value, key, room, now);
          if found.value.Some? then Effect(found.cache, Cached(found.value.value))
          else Fetch(cfg, found.cache, call)
    case Write(acknowledged) =>
      if !acknowledged then Effect(c, Failed)
      else
        var d := CacheClear(cfg, CacheClear(cfg, CacheClear(cfg, CacheClear(cfg, c, STATE), OBJECT), OBJECT_LIST), NEGATIVE);
        Effect(d, Done)
    case Other(op) => Effect(Step(cfg, c, op), Done)
  }

  /** What the cache may serve: full keys with values. */
  type Stock = iset<(string, seq<Byte>)>

  ghost predicate Level1Stocked(l: Level1, b: Stock) {
    forall i :: 0 <= i < |l.slots| && l.slots[i].used && ServesReads(l.slots[i].partition) ==>
      (l.slots[i].key, l.slots[i].value) in b
  }

  ghost predicate Level2Stocked(cfg: Config, l2: seq<Entry>, b: Stock) {
    forall e, p, key :: e in l2 && ServesReads(p) && e.key == FullKey(cfg.space, p, key) && e.value.Value? ==>
      (e.key, e.value.payload) in b
  }

  /** Everything either level could serve to a property read is in `b`. */
  ghost predicate Stocked(cfg: Config, c: Cache, b: Stock) {
    WellKept(c.l1) && Level1Stocked(c.l1, b) && Level2Stocked(cfg, c.l2, b) && (!cfg.hasL2 ==> c.l2 == [])
  }

  lemma L1PutStocked(cfg: Config, c: Cache, p: Partition, full: string, value: seq<Byte>, expires: nat, b: Stock)
    requires ValidConfig(cfg) && WellKept(c.l1) && Level1Stocked(c.l1, b) && (ServesReads(p) ==> (full, value) in b)
    ensures var d := L1Put(cfg, c, p, full, value, expires);
            WellKept(d.l1) && Level1Stocked(d.l1, b) && d.l2 == c.l2
  {
    hide SharedSlots.Put, WellKept;
    L1PutOutcome(c.l1, c.tally, p, full, value, expires, cfg.maxEntries[p], cfg.l1Bytes);
  }

  lemma L1GetStocked(l: Level1, p: Partition, full: string, room: nat, now: nat, b: Stock)
    requires WellKept(l) && Level1Stocked(l, b)
    ensures var r := SharedSlots.Get(l, p, full, room, now);
            && WellKept(r.level) && Level1Stocked(r.level, b)
            && (r.value.Some? && ServesReads(p) ==> (full, r.value.value) in b)
  {
  }

  lemma FetchStocked(cfg: Config, l2: seq<Entry>, p: Partition, key: string, room: nat, now: nat, b: Stock)
    requires Level2Stocked(cfg, l2, b) && ServesReads(p)
    ensures var full := FullKey(cfg.space, p, key);
            var r := TwoLevelCache.Fetch(l2, full, room, now);
            r.Some? ==> (full, r.value) in b
  {
    hide FullKey;
    var full := FullKey(cfg.space, p, key);
    var found := Find(l2, full);
    if found.Some? {
      assert Entry(full, found.value) in l2;
    }
  }

  /** Reading adds nothing to what the cache may serve. */
  lemma GetStocked(cfg: Config, c: Cache, p: Partition, key: string, room: nat, now: nat, b: Stock)
    requires ValidConfig(cfg) && Stocked(cfg, c, b)
    ensures var r := CacheGet(cfg, c, p, key, room, now);
            Stocked(cfg, r.cache, b)
            && (r.value.Some? && ServesReads(p) ==> (FullKey(cfg.space, p, key), r.value.value) in b)
  {
    hide SharedSlots.Get, L1Put, WellKept, Level1Stocked, Level2Stocked, FullKey, TwoLevelCache.Fetch;
    if cfg.enabled[p] {
      var full := FullKey(cfg.space, p, key);
      L1GetStocked(c.l1, p, full, room, now, b);
      var first := SharedSlots.Get(c.l1, p, full, room, now);
      var second := TwoLevelCache.Fetch(c.l2, full, room, now);
      if first.value.None? && cfg.hasL2 && second.Some? {
        if ServesReads(p) {
          FetchStocked(cfg, c.l2, p, key, room, now, b);
        }
        L1PutStocked(cfg, c.(l1 := first.level), p, full, second.value, now + cfg.ttl[p], b);
      }
    }
  }

  /** Writing adds at most its own entry. */
  lemma PutStocked(cfg: Config, c: Cache, p: Partition, key: string, value: seq<Byte>, ttl: nat, now: nat, b: Stock)
    requires ValidConfig(cfg) && Stocked(cfg, c, b)
    requires ServesReads(p) ==> (FullKey(cfg.space, p, key), value) in b
    ensures Stocked(cfg, CachePut(cfg, c, p, key, value, ttl, now), b)
  {
    hide L1Put, WellKept, Level1Stocked, Level2Stocked, FullKey, Insert, Pruned;
    if cfg.enabled[p] && ttl != 0 {
      var full := FullKey(cfg.space, p, key);
      L1PutStocked(cfg, c, p, full, value, now + ttl, b);
      if cfg.hasL2 {
        var stored := if |value| > VALUE_MAX then c.l2 else Insert(c.l2, full, Record(value, now + ttl));
        InsertStocked(cfg, c.l2, p, key, value, now + ttl, b);
        PrunedIsPart(stored, PartitionPrefix(cfg.space, p), SpacePrefix(cfg.space), now, cfg.maxEntries[p], cfg.l2Bytes);
        PartStocked(cfg, stored, Pruned(stored, PartitionPrefix(cfg.space, p), SpacePrefix(cfg.space), now,
                                        cfg.maxEntries[p], cfg.l2Bytes), b);
      }
    }
  }

  lemma InsertStocked(cfg: Config, l2: seq<Entry>, p: Partition, key: string, value: seq<Byte>, expires: nat, b: Stock)
    requires Level2Stocked(cfg, l2, b) && (ServesReads(p) ==> (FullKey(cfg.space, p, key), value) in b)
    ensures Level2Stocked(cfg, Insert(l2, FullKey(cfg.space, p, key), Record(value, expires)), b)
  {
    hide Insert, FullKey;
    var full := FullKey(cfg.space, p, key);
    var s := Insert(l2, full, Record(value, expires));
    InsertReplaces(l2, full, Record(value, expires));
    forall e, q, k | e in s && ServesReads(q) && e.key == FullKey(cfg.space, q, k) && e.value.Value?
      ensures (e.key, e.value.payload) in b
    {
      if e == Entry(full, Record(value, expires)) {
        FullKeyInjective(cfg.space, p, key, q, k);
      }
    }
  }

  lemma PartStocked(cfg: Config, s: seq<Entry>, t: seq<Entry>, b: Stock)
    requires Level2Stocked(cfg, s, b) && forall e :: e in t ==> e in s
    ensures Level2Stocked(cfg, t, b)
  {
  }

  /** Neither level holds anything of partition `p`. */
  ghost predicate EmptyOf(cfg: Config, c: Cache, p: Partition) {
    && (forall i :: 0 <= i < |c.l1.slots| && c.l1.slots[i].used ==> c.l1.slots[i].partition != p)
    && (forall e, key :: e in c.l2 ==> e.key != FullKey(cfg.space, p, key))
  }

  lemma ClearEmpties(cfg: Config, c: Cache, p: Partition, q: Partition)
    requires ValidConfig(cfg) && (!cfg.hasL2 ==> c.l2 == [])
    ensures var d := CacheClear(cfg, c, p);
            EmptyOf(cfg, d, p) && (EmptyOf(cfg, c, q) ==> EmptyOf(cfg, d, q)) && (!cfg.hasL2 ==> d.l2 == [])
  {
    hide FullKey, Without, PartitionPrefix;
    if cfg.hasL2 {
      WithoutKeeps(c.l2, Everything(PartitionPrefix(cfg.space, p)));
      forall key ensures HasPrefix(PartitionPrefix(cfg.space, p), FullKey(cfg.space, p, key)) {
        OwnScan(cfg.space, p, p, key);
      }
    }
  }

  lemma ClearStocked(cfg: Config, c: Cache, which: int, b: Stock)
    requires ValidConfig(cfg) && Stocked(cfg, c, b) && which < PARTITIONS
    ensures Stocked(cfg, CacheClear(cfg, c, which), b)
  {
    hide FullKey, Without;
    var prefix := if which < 0 then SpacePrefix(cfg.space) else PartitionPrefix(cfg.space, which);
    WithoutKeeps(c.l2, Everything(prefix));
  }

  /** A successful write leaves nothing that could answer a property read. */
  lemma WriteEmpties(cfg: Config, c: Cache, b: Stock)
    requires ValidConfig(cfg) && Stocked(cfg, c, b)
    ensures Stocked(cfg, Perform(cfg, c, Write(true)).cache, iset{})
  {
    hide CacheClear, EmptyOf, WellKept, Level1Stocked, Level2Stocked;
    var c1 := CacheClear(cfg, c, STATE);
    var c2 := CacheClear(cfg, c1, OBJECT);
    var c3 := CacheClear(cfg, c2, OBJECT_LIST);
    var c4 := CacheClear(cfg, c3, NEGATIVE);
    ClearStocked(cfg, c, STATE, b);
    ClearStocked(cfg, c1, OBJECT, b);
    ClearStocked(cfg, c2, OBJECT_LIST, b);
    ClearStocked(cfg, c3, NEGATIVE, b);
    ClearEmpties(cfg, c, STATE, STATE);
    ClearEmpties(cfg, c1, OBJECT, STATE);
    ClearEmpties(cfg, c2, OBJECT_LIST, STATE);
    ClearEmpties(cfg, c2, OBJECT_LIST, OBJECT);
    ClearEmpties(cfg, c3, NEGATIVE, STATE);
    ClearEmpties(cfg, c3, NEGATIVE, OBJECT);
    ClearEmpties(cfg, c3, NEGATIVE, OBJECT_LIST);
    EmptyIsStocked(cfg, c4);
  }

  lemma EmptyIsStocked(cfg: Config, c: Cache)
    requires EmptyOf(cfg, c, STATE) && EmptyOf(cfg, c, OBJECT) && EmptyOf(cfg, c, OBJECT_LIST) && EmptyOf(cfg, c, NEGATIVE)
    ensures Level1Stocked(c.l1, iset{}) && Level2Stocked(cfg, c.l2, iset{})
  {
    hide FullKey;
  }

  /** What a call adds to what the cache may serve. */
  ghost predicate Adds(cfg: Config, call: Call, outcome: Outcome, full: string, value: seq<Byte>)
    requires ValidCall(call)
  {
    match call
    case Read(partition, key, _, _, _, _) =>
      (outcome == Fetched(value) && partition.Some? && full == FullKey(cfg.space, partition.value, key))
      || (outcome == TimedOut && value == [1] && full == FullKey(cfg.space, NEGATIVE, NegativeKey(key)))
    case Write(_) => false
    case Other(op) => op.PutOp? && ServesReads(op.p) && full == FullKey(cfg.space, op.p, op.key) && value == op.value
  }

  ghost function More(cfg: Config, b: Stock, call: Call, outcome: Outcome): Stock
    requires ValidCall(call)
  {
    if call == Write(true) then iset{} else b + iset full, value | Adds(cfg, call, outcome, full, value) :: (full, value)
  }

  lemma StockedGrows(cfg: Config, c: Cache, b: Stock, d: Stock)
    requires Stocked(cfg, c, b) && b <= d
    ensures Stocked(cfg, c, d)
  {
    hide FullKey;
  }

  lemma FetchKeeps(cfg: Config, c: Cache, call: Call, b: Stock)
    requires ValidConfig(cfg) && ValidCall(call) && call.Read? && Stocked(cfg, c, b)
    ensures var r := Fetch(cfg, c, call);
            Stocked(cfg, r.cache, More(cfg, b, call, r.outcome)) && !r.outcome.Cached? && !r.outcome.CachedTimeout?
  {
    hide CachePut, Stocked, FullKey;
    var r := Fetch(cfg, c, call);
    var d := More(cfg, b, call, r.outcome);
    StockedGrows(cfg, c, b, d);
    if call.answer.Timeout? {
      assert Adds(cfg, call, TimedOut, FullKey(cfg.space, NEGATIVE, NegativeKey(call.key)), [1]);
      PutStocked(cfg, c, NEGATIVE, NegativeKey(call.key), [1], cfg.ttl[NEGATIVE], call.now, d);
    } else if call.answer.Value? && call.partition.Some? {
      var p := call.partition.value;
      assert Adds(cfg, call, r.outcome, FullKey(cfg.space, p, call.key), call.answer.bytes);
      PutStocked(cfg, c, p, call.key, call.answer.bytes, cfg.ttl[p], call.now, d);
    }
  }

  /** One call: what it serves from the cache was in stock, and the stock grows only by what it fetched. */
  lemma PerformKeeps(cfg: Config, c: Cache, call: Call, b: Stock)
    requires ValidConfig(cfg) && ValidCall(call) && Stocked(cfg, c, b)
    ensures var r := Perform(cfg, c, call);
            && Stocked(cfg, r.cache, More(cfg, b, call, r.outcome))
            && (r.outcome.Cached? ==>
                  call.Read? && !call.refresh && call.partition.Some?
                  && (FullKey(cfg.space, call.partition.value, call.key), r.outcome.value) in b)
            && (r.outcome.CachedTimeout? ==>
                  call.Read? && !call.refresh
                  && exists value :: (FullKey(cfg.space, NEGATIVE, NegativeKey(call.key)), value) in b)
  {
    hide CachePut, CacheGet, CacheClear, Stocked, FullKey, Fetch;
    var r := Perform(cfg, c, call);
    match call
    case Read(partition, key, refresh, answer, room, now) =>
      if refresh {
        var d := if partition.Some? then CacheClear(cfg, c, partition.value) else c;
        if partition.Some? {
          ClearStocked(cfg, c, partition.value, b);
        }
        ClearStocked(cfg, d, NEGATIVE, b);
        FetchKeeps(cfg, CacheClear(cfg, d, NEGATIVE), call, b);
      } else {
        var negative := CacheGet(cfg, c, NEGATIVE, NegativeKey(key), 1, now);
        GetStocked(cfg, c, NEGATIVE, NegativeKey(key), 1, now, b);
        if negative.value.None? {
          if partition.Some? {
            var found := CacheGet(cfg, negative.cache, partition.value, key, room, now);
            GetStocked(cfg, negative.cache, partition.value, key, room, now, b);
            if found.value.None? {
              FetchKeeps(cfg, found.cache, call, b);
            } else {
              StockedGrows(cfg, found.cache, b, More(cfg, b, call, r.outcome));
            }
          } else {
            FetchKeeps(cfg, negative.cache, call, b);
          }
        } else {
          StockedGrows(cfg, negative.cache, b, More(cfg, b, call, r.outcome));
        }
      }
    case Write(acknowledged) =>
      if acknowledged {
        WriteStocked(cfg, c, b);
      } else {
        StockedGrows(cfg, c, b, More(cfg, b, call, r.outcome));
      }
    case Other(op) =>
      StockedGrows(cfg, c, b, More(cfg, b, call, r.outcome));
      if op.PutOp? && ServesReads(op.p) {
        assert Adds(cfg, call, r.outcome, FullKey(cfg.space, op.p, op.key), op.value);
      }
      OtherStocked(cfg, c, op, More(cfg, b, call, r.outcome));
  }

  lemma WriteStocked(cfg: Config, c: Cache, b: Stock)
    requires ValidConfig(cfg) && Stocked(cfg, c, b)
    ensures Stocked(cfg, Perform(cfg, c, Write(true)).cache, iset{})
  {
    WriteEmpties(cfg, c, b);
  }

  lemma OtherStocked(cfg: Config, c: Cache, op: Op, b: Stock)
    requires ValidConfig(cfg) && ValidCall(Other(op)) && Stocked(cfg, c, b)
    requires op.PutOp? && ServesReads(op.p) ==> (FullKey(cfg.space, op.p, op.key), op.value) in b
    ensures Stocked(cfg, Step(cfg, c, op), b)
  {
    hide CachePut, CacheGet, CacheClear, Stocked, FullKey;
    match op
    case GetOp(p, key, room, now) => GetStocked(cfg, c, p, key, room, now, b);
    case PutOp(p, key, value, ttl, now) => PutStocked(cfg, c, p, key, value, ttl, now, b);
    case ClearOp(which) => ClearStocked(cfg, c, which, b);
  }

  ghost predicate ValidCalls(calls: seq<Call>) {
    forall i :: 0 <= i < |calls| ==> ValidCall(calls[i])
  }

  function CacheAt(cfg: Config, calls: seq<Call>, n: nat): Cache
    requires ValidConfig(cfg) && ValidCalls(calls) && n <= |calls|
  {
    if n == 0 then Cache(Level1(seq(SLOTS, _ => BLANK), 0), Tally(0, 0), [])
    else Perform(cfg, CacheAt(cfg, calls, n - 1), calls[n - 1]).cache
  }

  function OutcomeAt(cfg: Config, calls: seq<Call>, n: nat): Outcome
    requires ValidConfig(cfg) && ValidCalls(calls) && n < |calls|
  {
    Perform(cfg, CacheAt(cfg, calls, n), calls[n]).outcome
  }

  /** No successful write among the calls from `j` to before `n`. */
  ghost predicate Quiet(calls: seq<Call>, j: nat, n: nat)
    requires n <= |calls|
  {
    forall i :: j <= i < n ==> calls[i] != Write(true)
  }

  /** What has been fetched since the last successful write. */
  ghost function StockAt(cfg: Config, calls: seq<Call>, n: nat): Stock
    requires ValidConfig(cfg) && ValidCalls(calls) && n <= |calls|
  {
    if n == 0 then iset{}
    else More(cfg, StockAt(cfg, calls, n - 1), calls[n - 1], OutcomeAt(cfg, calls, n - 1))
  }

  lemma {:induction false} RunStocked(cfg: Config, calls: seq<Call>, n: nat)
    requires ValidConfig(cfg) && ValidCalls(calls) && n <= |calls|
    ensures Stocked(cfg, CacheAt(cfg, calls, n), StockAt(cfg, calls, n))
  {
    hide Perform, Stocked, More;
    if n > 0 {
      RunStocked(cfg, calls, n - 1);
      PerformKeeps(cfg, CacheAt(cfg, calls, n - 1), calls[n - 1], StockAt(cfg, calls, n - 1));
    } else {
      NothingStocked(cfg);
    }
  }

  lemma NothingStocked(cfg: Config)
    ensures Stocked(cfg, Cache(Level1(seq(SLOTS, _ => BLANK), 0), Tally(0, 0), []), iset{})
  {
  }

  lemma {:induction false} StockHasOrigin(cfg: Config, calls: seq<Call>, n: nat, full: string, value: seq<Byte>)
    returns (j: nat)
    requires ValidConfig(cfg) && ValidCalls(calls) && n <= |calls| && (full, value) in StockAt(cfg, calls, n)
    ensures j < n && Adds(cfg, calls[j], OutcomeAt(cfg, calls, j), full, value) && Quiet(calls, j, n)
  {
    hide Adds, OutcomeAt;
    if (full, value) in StockAt(cfg, calls, n - 1) {
      j := StockHasOrigin(cfg, calls, n - 1, full, value);
    } else {
      j := n - 1;
    }
  }

  /** A read of the same cached property that got `value` from the network at call `j`, with no successful write
      since. */
  ghost predicate FetchedSince(cfg: Config, calls: seq<Call>, n: nat, j: nat, value: seq<Byte>)
    requires ValidConfig(cfg) && ValidCalls(calls) && n < |calls| && j < n
  {
    calls[j].Read? && calls[n].Read? && calls[j].partition == calls[n].partition && calls[j].key == calls[n].key
    && OutcomeAt(cfg, calls, j) == Fetched(value) && Quiet(calls, j, n)
  }

  /** Main theorem: in every sequential run of one client, a property read answered from the cache shows a value
      that was fetched from the network for that very property after the client's most recent successful write. */
  lemma CachedReadsAreFresh(cfg: Config, calls: seq<Call>, n: nat) returns (j: nat)
    requires ValidConfig(cfg) && ValidCalls(calls) && n < |calls| && OutcomeAt(cfg, calls, n).Cached?
    ensures j < n && FetchedSince(cfg, calls, n, j, OutcomeAt(cfg, calls, n).value) && !calls[n].refresh
  {
    hide Perform, Stocked, CacheAt, StockAt, More, FullKey;
    RunStocked(cfg, calls, n);
    PerformKeeps(cfg, CacheAt(cfg, calls, n), calls[n], StockAt(cfg, calls, n));
    var p, key, value := calls[n].partition.value, calls[n].key, OutcomeAt(cfg, calls, n).value;
    j := StockHasOrigin(cfg, calls, n, FullKey(cfg.space, p, key), value);
    match calls[j]
    case Read(partition, k, _, _, _, _) =>
      if partition.Some? {
        OnlyIf(cfg.space, p, key, partition.value, k);
      }
      OnlyIf(cfg.space, p, key, NEGATIVE, NegativeKey(k));
    case Other(op) => OnlyIf(cfg.space, p, key, op.p, op.key);
  }

  lemma OnlyIf(space: string, p: Partition, key: string, q: Partition, key': string)
    ensures FullKey(space, p, key) == FullKey(space, q, key') ==> p == q && key == key'
  {
    hide FullKey;
    if FullKey(space, p, key) == FullKey(space, q, key') {
      FullKeyInjective(space, p, key, q, key');
    }
  }

  /** Likewise a read that fails from the negative cache repeats a timeout seen after the most recent write. */
  lemma CachedTimeoutsAreFresh(cfg: Config, calls: seq<Call>, n: nat) returns (j: nat)
    requires ValidConfig(cfg) && ValidCalls(calls) && n < |calls| && OutcomeAt(cfg, calls, n).CachedTimeout?
    ensures j < n && calls[j].Read? && calls[n].Read? && calls[j].key == calls[n].key && !calls[n].refresh
    ensures OutcomeAt(cfg, calls, j) == TimedOut && Quiet(calls, j, n)
  {
    hide Perform, Stocked, CacheAt, StockAt, More, FullKey;
    RunStocked(cfg, calls, n);
    PerformKeeps(cfg, CacheAt(cfg, calls, n), calls[n], StockAt(cfg, calls, n));
    var full := FullKey(cfg.space, NEGATIVE, NegativeKey(calls[n].key));
    var value :| (full, value) in StockAt(cfg, calls, n);
    j := StockHasOrigin(cfg, calls, n, full, value);
    assert NegativeKey(calls[n].key)[0] == 'r';
    match calls[j]
    case Read(partition, k, _, _, _, _) =>
      if partition.Some? {
        OnlyIf(cfg.space, NEGATIVE, NegativeKey(calls[n].key), partition.value, k);
      }
      OnlyIf(cfg.space, NEGATIVE, NegativeKey(calls[n].key), NEGATIVE, NegativeKey(k));
      SameTail(calls[n].key, k);
    case Other(op) =>
      OnlyIf(cfg.space, NEGATIVE, NegativeKey(calls[n].key), op.p, op.key);
  }

  lemma SameTail(a: string, b: string)
    ensures NegativeKey(a) == NegativeKey(b) ==> a == b
  {
    assert NegativeKey(a)[5..] == a && NegativeKey(b)[5..] == b;
  }
}
