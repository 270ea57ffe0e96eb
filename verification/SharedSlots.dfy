/** The first cache level as a state machine on values: a fixed table of slots shared by all processes, with a
    limit on entries per partition, a limit on bytes, and replacement by least recent use. The class `SharedCache`
    implements these steps in place. */
module SharedSlots {
  import opened Fnv
  import opened Wrappers

  const SLOTS: nat := 2048
  const KEY_MAX: nat := 192
  const VALUE_MAX: nat := 4096
  const PARTITIONS: nat := 6

  type Partition = p: nat | p < PARTITIONS

  datatype Slot = Slot(used: bool, partition: Partition, key: string, value: seq<Byte>, expires: nat, touched: nat)

  const BLANK := Slot(false, 0, "", [], 0, 0)

  /** Bytes held by the used ones of the first `n` slots. */
  function Bytes(t: seq<Slot>, n: nat): nat
    requires n <= |t|
  {
    if n == 0 then 0 else Bytes(t, n - 1) + if t[n - 1].used then |t[n - 1].value| else 0
  }

  function Entries(t: seq<Slot>, p: Partition, n: nat): nat
    requires n <= |t|
  {
    if n == 0 then 0 else Entries(t, p, n - 1) + if t[n - 1].used && t[n - 1].partition == p then 1 else 0
  }

  function UsedSlots(t: seq<Slot>, n: nat): nat
    requires n <= |t|
  {
    if n == 0 then 0 else UsedSlots(t, n - 1) + if t[n - 1].used then 1 else 0
  }

  /** The last of the first `n` slots that holds `key`; -1 if none does. */
  function Locate(t: seq<Slot>, key: string, n: nat): (k: int)
    requires n <= |t|
    ensures -1 <= k < n
    ensures k >= 0 ==> t[k].used && t[k].key == key
    ensures forall i :: k < i < n ==> !(t[i].used && t[i].key == key)
  {
    if n == 0 then -1
    else if t[n - 1].used && t[n - 1].key == key then n - 1 else Locate(t, key, n - 1)
  }

  /** The first unused one of the first `n` slots; -1 if all are used. */
  function FirstFree(t: seq<Slot>, n: nat): (k: int)
    requires n <= |t|
    ensures -1 <= k < n
    ensures k >= 0 ==> !t[k].used
    ensures k < 0 ==> forall i :: 0 <= i < n ==> t[i].used
  {
    if n == 0 then -1
    else
      var k := FirstFree(t, n - 1);
      if k < 0 && !t[n - 1].used then n - 1 else k
  }

  predicate Candidate(t: seq<Slot>, i: nat, p: int, skip: int)
    requires i < |t|
  {
    t[i].used && i != skip && (p < 0 || t[i].partition == p)
  }

  /** The least recently used of the first `n` slots, `skip` aside, in partition `p` (anywhere if negative); -1 if
      there is none. */
  function Oldest(t: seq<Slot>, p: int, skip: int, n: nat): (k: int)
    requires n <= |t|
    ensures -1 <= k < n
    ensures k >= 0 ==> Candidate(t, k, p, skip)
    ensures forall i :: 0 <= i < n && Candidate(t, i, p, skip) ==> 0 <= k && t[k].touched <= t[i].touched
  {
    if n == 0 then -1
    else
      var k := Oldest(t, p, skip, n - 1);
      if Candidate(t, n - 1, p, skip) && (k < 0 || t[n - 1].touched < t[k].touched) then n - 1 else k
  }

  /** Where a put goes: the slot of its key, else a free slot if the partition has room, else over the least
      recently used entry of the partition (of the whole table if the partition is empty). */
  function Target(t: seq<Slot>, p: Partition, key: string, maxEntries: nat): (k: int)
    ensures -1 <= k < |t|
  {
    var found, free := Locate(t, key, |t|), FirstFree(t, |t|);
    if found >= 0 then found
    else if free >= 0 && Entries(t, p, |t|) < maxEntries then free
    else
      var lru := Oldest(t, p, -1, |t|);
      if lru >= 0 then lru else Oldest(t, -1, -1, |t|)
  }

  /** Does the put drop the entry in its target slot to make room? */
  predicate Displaces(t: seq<Slot>, p: Partition, key: string, maxEntries: nat) {
    var k := Target(t, p, key, maxEntries);
    k >= 0 && t[k].used && t[k].key != key
  }

  /** Bytes held by the slots other than `target`. */
  function Others(t: seq<Slot>, target: nat): int
    requires target < |t|
  {
    Bytes(t, |t|) - if t[target].used then |t[target].value| else 0
  }

  function Dropped(x: Slot): Slot {
    x.(used := false)
  }

  /** Drops least recently used entries other than `target` until the rest fits into `room`. */
  function Shrink(t: seq<Slot>, target: nat, room: nat): (u: seq<Slot>)
    requires target < |t|
    ensures |u| == |t| && UsedSlots(u, |u|) <= UsedSlots(t, |t|)
    decreases UsedSlots(t, |t|)
  {
    var v := Oldest(t, -1, target, |t|);
    if Others(t, target) <= room || v < 0 then t
    else
      UsedAfterDrop(t, v, |t|);
      Shrink(t[v := Dropped(t[v])], target, room)
  }

  lemma {:induction false} UsedAfterDrop(t: seq<Slot>, v: nat, n: nat)
    requires v < |t| && t[v].used && n <= |t|
    ensures UsedSlots(t[v := Dropped(t[v])], n) == UsedSlots(t, n) - if v < n then 1 else 0
  {
    if n > 0 {
      UsedAfterDrop(t, v, n - 1);
    }
  }

  datatype Level1 = Level1(slots: seq<Slot>, tick: nat)

  datatype Tally = Tally(evictions: nat, failures: nat)

  datatype PutResult = PutResult(level: Level1, tally: Tally)

  /** One put under the lock. */
  function Put(l: Level1, c: Tally, p: Partition, key: string, value: seq<Byte>, expires: nat, maxEntries: nat,
               maxBytes: nat): (r: PutResult)
    ensures |r.level.slots| == |l.slots|
  {
    if |value| > VALUE_MAX then PutResult(l, c.(failures := c.failures + 1))
    else if |key| >= KEY_MAX then PutResult(l, c)
    else
      var k := Target(l.slots, p, key, maxEntries);
      var displaced := c.evictions + if Displaces(l.slots, p, key, maxEntries) then 1 else 0;
      if k < 0 || |value| > maxBytes then PutResult(l, Tally(displaced, c.failures + 1))
      else
        var kept := Shrink(l.slots, k, maxBytes - |value|);
        PutResult(Level1(kept[k := Slot(true, p, key, value, expires, l.tick + 1)], l.tick + 1),
                  Tally(displaced + UsedSlots(l.slots, |l.slots|) - UsedSlots(kept, |kept|), c.failures))
  }

  /** The first of the first `n` slots that holds `key` in partition `p`; -1 if none does. */
  function Lookup(t: seq<Slot>, p: Partition, key: string, n: nat): (k: int)
    requires n <= |t|
    ensures -1 <= k < n
    ensures k >= 0 ==> t[k].used && t[k].partition == p && t[k].key == key
    ensures forall i :: 0 <= i < (if k < 0 then n else k) ==> !(t[i].used && t[i].partition == p && t[i].key == key)
  {
    if n == 0 then -1
    else
      var k := Lookup(t, p, key, n - 1);
      if k < 0 && t[n - 1].used && t[n - 1].partition == p && t[n - 1].key == key then n - 1 else k
  }

  datatype GetResult = GetResult(level: Level1, value: Option<seq<Byte>>, expired: bool)

  /** One lookup under the lock, for a caller with `room` bytes: an expired entry is dropped, a hit becomes the most
      recently used entry. */
  function Get(l: Level1, p: Partition, key: string, room: nat, now: nat): (r: GetResult)
    ensures |r.level.slots| == |l.slots|
  {
    var k := Lookup(l.slots, p, key, |l.slots|);
    if k < 0 then GetResult(l, None, false)
    else if l.slots[k].expires <= now then
      GetResult(l.(slots := l.slots[k := Dropped(l.slots[k])]), None, true)
    else if |l.slots[k].value| <= room then
      GetResult(Level1(l.slots[k := l.slots[k].(touched := l.tick + 1)], l.tick + 1), Some(l.slots[k].value), false)
    else GetResult(l, None, false)
  }

  /** Clearing one partition, or every partition if `p` is negative. */
  function Clear(l: Level1, p: int): (r: Level1)
    ensures |r.slots| == |l.slots|
  {
    l.(slots := seq(|l.slots|, i requires 0 <= i < |l.slots| =>
      if l.slots[i].used && (p < 0 || l.slots[i].partition == p) then Dropped(l.slots[i]) else l.slots[i]))
  }

  /** No key has two slots. */
  ghost predicate UniqueKeys(t: seq<Slot>) {
    forall i, j :: 0 <= i < j < |t| && t[i].used && t[j].used ==> t[i].key != t[j].key
  }

  /** Every entry was used at a tick of its own. */
  ghost predicate DistinctTicks(l: Level1) {
    && (forall i :: 0 <= i < |l.slots| && l.slots[i].used ==> l.slots[i].touched <= l.tick)
    && DistinctTouches(l.slots)
  }

  ghost predicate DistinctTouches(t: seq<Slot>) {
    forall i, j :: 0 <= i < j < |t| && t[i].used && t[j].used ==> t[i].touched != t[j].touched
  }

  /** `u` is `t` with some entries dropped. */
  ghost predicate Thinned(t: seq<Slot>, u: seq<Slot>) {
    |u| == |t| && forall i :: 0 <= i < |t| ==> u[i] == t[i] || (t[i].used && u[i] == Dropped(t[i]))
  }

  predicate Evicted(t: seq<Slot>, u: seq<Slot>, i: nat)
    requires i < |t| == |u|
  {
    t[i].used && !u[i].used
  }

  /** Every entry dropped was used less recently than every entry kept, `target` aside. */
  ghost predicate LeastRecent(t: seq<Slot>, u: seq<Slot>, target: nat)
    requires |u| == |t|
  {
    forall i, j :: 0 <= i < |t| && 0 <= j < |t| && Evicted(t, u, i) && u[j].used && j != target ==>
      t[i].touched < t[j].touched
  }

  /** The most recently used of the entries dropped would not have fitted. */
  ghost predicate NoneToSpare(t: seq<Slot>, u: seq<Slot>, target: nat, room: nat)
    requires target < |t| == |u|
  {
    forall i :: 0 <= i < |t| && Evicted(t, u, i)
                && (forall k :: 0 <= k < |t| && Evicted(t, u, k) ==> t[k].touched <= t[i].touched) ==>
      Others(u, target) + |t[i].value| > room
  }

  lemma {:induction false} BytesAfterDrop(t: seq<Slot>, v: nat, n: nat)
    requires v < |t| && t[v].used && n <= |t|
    ensures Bytes(t[v := Dropped(t[v])], n) == Bytes(t, n) - if v < n then |t[v].value| else 0
  {
    if n > 0 {
      BytesAfterDrop(t, v, n - 1);
    }
  }

  lemma {:induction false} OnlyTarget(t: seq<Slot>, target: nat, n: nat)
    requires target < |t| && n <= |t| && forall i :: 0 <= i < n && i != target ==> !t[i].used
    ensures Bytes(t, n) == if target < n && t[target].used then |t[target].value| else 0
  {
    if n > 0 {
      OnlyTarget(t, target, n - 1);
    }
  }

  /** The byte loop frees the room it was asked for by dropping the least recently used entries, and not one more
      than needed; it cannot run out of entries to drop. */
  lemma {:induction false} ShrinkIsMinimal(t: seq<Slot>, target: nat, room: nat)
    requires target < |t| && DistinctTouches(t)
    ensures var u := Shrink(t, target, room);
            Thinned(t, u) && u[target] == t[target] && Others(u, target) <= room
            && LeastRecent(t, u, target) && NoneToSpare(t, u, target, room)
    decreases UsedSlots(t, |t|)
  {
    hide Thinned, LeastRecent, NoneToSpare, DistinctTouches, Candidate, Bytes, UsedSlots;
    var v := Oldest(t, -1, target, |t|);
    if Others(t, target) <= room || v < 0 {
      NothingDropped(t, target, room);
      if v < 0 {
        NoCandidate(t, target);
      }
    } else {
      var t' := t[v := Dropped(t[v])];
      OldestIsLeast(t, target);
      UsedAfterDrop(t, v, |t|);
      BytesAfterDrop(t, v, |t|);
      DropKeepsTouches(t, v);
      ShrinkIsMinimal(t', target, room);
      OneMoreDropped(t, v, Shrink(t, target, room), target, room);
    }
  }

  lemma NothingDropped(t: seq<Slot>, target: nat, room: nat)
    requires target < |t|
    ensures Thinned(t, t) && LeastRecent(t, t, target) && NoneToSpare(t, t, target, room)
  {
  }

  lemma NoCandidate(t: seq<Slot>, target: nat)
    requires target < |t| && Oldest(t, -1, target, |t|) < 0
    ensures Others(t, target) == 0
  {
    assert forall i :: 0 <= i < |t| && i != target ==> !Candidate(t, i, -1, target);
    OnlyTarget(t, target, |t|);
  }

  lemma OldestIsLeast(t: seq<Slot>, target: nat)
    requires target < |t| && Oldest(t, -1, target, |t|) >= 0
    ensures var v := Oldest(t, -1, target, |t|);
            v != target && t[v].used
            && forall i :: 0 <= i < |t| && t[i].used && i != target ==> t[v].touched <= t[i].touched
  {
    assert forall i :: 0 <= i < |t| && t[i].used && i != target ==> Candidate(t, i, -1, target);
  }

  lemma DropKeepsTouches(t: seq<Slot>, v: nat)
    requires v < |t| && t[v].used && DistinctTouches(t)
    ensures DistinctTouches(t[v := Dropped(t[v])])
  {
  }

  lemma OneMoreDropped(t: seq<Slot>, v: nat, u: seq<Slot>, target: nat, room: nat)
    requires target < |t| && v < |t| == |u| && DistinctTouches(t) && Others(t, target) > room
    requires v != target && t[v].used
    requires forall i :: 0 <= i < |t| && t[i].used && i != target ==> t[v].touched <= t[i].touched
    requires var t' := t[v := Dropped(t[v])];
             Thinned(t', u) && u[target] == t'[target] && LeastRecent(t', u, target) && NoneToSpare(t', u, target, room)
             && Others(t', target) == Others(t, target) - |t[v].value|
    ensures Thinned(t, u) && u[target] == t[target] && LeastRecent(t, u, target) && NoneToSpare(t, u, target, room)
  {
    hide Others;
    var t' := t[v := Dropped(t[v])];
    assert Evicted(t, u, v);
    forall i | 0 <= i < |t| && Evicted(t, u, i)
               && (forall k :: 0 <= k < |t| && Evicted(t, u, k) ==> t[k].touched <= t[i].touched)
      ensures Others(u, target) + |t[i].value| > room
    {
      if i == v {
        assert forall k :: 0 <= k < |t| && Evicted(t', u, k) ==> false;
        assert u == t';
      } else {
        assert Evicted(t', u, i);
      }
    }
  }

  /** Any entry of this key is filed under this partition, as full keys name their partition. */
  ghost predicate Filed(t: seq<Slot>, p: Partition, key: string) {
    forall i :: 0 <= i < |t| && t[i].used && t[i].key == key ==> t[i].partition == p
  }

  predicate Accepts(key: string, value: seq<Byte>, maxBytes: nat) {
    |key| < KEY_MAX && |value| <= VALUE_MAX && |value| <= maxBytes
  }

  /** What the choice of the target slot guarantees. */
  lemma TargetIsSound(t: seq<Slot>, p: Partition, key: string, maxEntries: nat)
    requires 0 < |t| && UniqueKeys(t) && 0 < maxEntries
    ensures var k := Target(t, p, key, maxEntries);
            && 0 <= k < |t|
            && (forall i :: 0 <= i < |t| && i != k ==> !(t[i].used && t[i].key == key))
            && (t[k].used && t[k].key != key && t[k].partition == p ==>
                  forall i :: 0 <= i < |t| && t[i].used && t[i].partition == p ==> t[k].touched <= t[i].touched)
            && (t[k].used && t[k].key != key && t[k].partition != p ==>
                  Entries(t, p, |t|) == 0 && forall i :: 0 <= i < |t| && t[i].used ==> t[k].touched <= t[i].touched)
            && (!t[k].used ==> Entries(t, p, |t|) < maxEntries)
            && (t[k].used && t[k].key != key ==> FirstFree(t, |t|) < 0 || Entries(t, p, |t|) >= maxEntries)
  {
    hide Candidate, Entries;
    var found, free := Locate(t, key, |t|), FirstFree(t, |t|);
    if found < 0 && !(free >= 0 && Entries(t, p, |t|) < maxEntries) {
      var lru := Oldest(t, p, -1, |t|);
      CandidateIs(t, p);
      CandidateIs(t, -1);
      if lru < 0 {
        NoEntries(t, p, |t|);
      }
    }
  }

  lemma CandidateIs(t: seq<Slot>, p: int)
    ensures forall i :: 0 <= i < |t| ==> (Candidate(t, i, p, -1) <==> t[i].used && (p < 0 || t[i].partition == p))
  {
  }

  lemma {:induction false} NoEntries(t: seq<Slot>, p: Partition, n: nat)
    requires n <= |t| && forall i :: 0 <= i < n ==> !(t[i].used && t[i].partition == p)
    ensures Entries(t, p, n) == 0
  {
    if n > 0 {
      NoEntries(t, p, n - 1);
    }
  }

  lemma {:induction false} EntriesThin(t: seq<Slot>, u: seq<Slot>, p: Partition, n: nat)
    requires Thinned(t, u) && n <= |t|
    ensures Entries(u, p, n) <= Entries(t, p, n)
  {
    if n > 0 {
      EntriesThin(t, u, p, n - 1);
    }
  }

  lemma {:induction false} EntriesAfterWrite(t: seq<Slot>, k: nat, x: Slot, p: Partition, n: nat)
    requires k < |t| && n <= |t|
    ensures Entries(t[k := x], p, n) == Entries(t, p, n)
            + if k < n then (if x.used && x.partition == p then 1 else 0) - (if t[k].used && t[k].partition == p then 1 else 0)
              else 0
  {
    if n > 0 {
      EntriesAfterWrite(t, k, x, p, n - 1);
    }
  }

  lemma {:induction false} BytesAfterWrite(t: seq<Slot>, k: nat, x: Slot, n: nat)
    requires k < |t| && n <= |t|
    ensures Bytes(t[k := x], n) == Bytes(t, n)
            + if k < n then (if x.used then |x.value| else 0) - (if t[k].used then |t[k].value| else 0) else 0
  {
    if n > 0 {
      BytesAfterWrite(t, k, x, n - 1);
    }
  }

  function Stored(p: Partition, key: string, value: seq<Byte>, expires: nat, tick: nat): Slot {
    Slot(true, p, key, value, expires, tick)
  }

  /** An accepted put, in two movements: thin the table out, then overwrite the target slot. */
  lemma PutInSteps(l: Level1, c: Tally, p: Partition, key: string, value: seq<Byte>, expires: nat, maxEntries: nat,
                   maxBytes: nat)
    requires 0 < |l.slots| && UniqueKeys(l.slots) && 0 < maxEntries && Accepts(key, value, maxBytes)
    ensures var r, k := Put(l, c, p, key, value, expires, maxEntries, maxBytes), Target(l.slots, p, key, maxEntries);
            && 0 <= k < |l.slots|
            && var kept := Shrink(l.slots, k, maxBytes - |value|);
            && r.level == Level1(kept[k := Stored(p, key, value, expires, l.tick + 1)], l.tick + 1)
            && r.tally.failures == c.failures
            && r.tally.evictions == c.evictions + (if Displaces(l.slots, p, key, maxEntries) then 1 else 0)
                                    + UsedSlots(l.slots, |l.slots|) - UsedSlots(kept, |kept|)
  {
    hide Shrink, Target;
    TargetIsSound(l.slots, p, key, maxEntries);
  }

  /** Whatever the table looked like, an accepted put leaves it within the byte limit; the partition stays within
      its entry limit and no other partition grows. */
  lemma PutKeepsCaps(l: Level1, c: Tally, p: Partition, key: string, value: seq<Byte>, expires: nat, maxEntries: nat,
                     maxBytes: nat, q: Partition)
    requires 0 < |l.slots| && UniqueKeys(l.slots) && DistinctTicks(l) && Filed(l.slots, p, key)
    requires 0 < maxEntries && Accepts(key, value, maxBytes)
    ensures var t, u := l.slots, Put(l, c, p, key, value, expires, maxEntries, maxBytes).level.slots;
            && Bytes(u, |u|) <= maxBytes
            && (Entries(t, p, |t|) <= maxEntries ==> Entries(u, p, |u|) <= maxEntries)
            && (q != p ==> Entries(u, q, |u|) <= Entries(t, q, |t|))
  {
    hide Put, Target, Shrink, UniqueKeys, LeastRecent, NoneToSpare;
    var t, k := l.slots, Target(l.slots, p, key, maxEntries);
    PutInSteps(l, c, p, key, value, expires, maxEntries, maxBytes);
    TargetIsSound(t, p, key, maxEntries);
    var kept := Shrink(t, k, maxBytes - |value|);
    ShrinkIsMinimal(t, k, maxBytes - |value|);
    var x := Stored(p, key, value, expires, l.tick + 1);
    BytesAfterWrite(kept, k, x, |t|);
    EntriesThin(t, kept, p, |t|);
    EntriesThin(t, kept, q, |t|);
    EntriesAfterWrite(kept, k, x, p, |t|);
    EntriesAfterWrite(kept, k, x, q, |t|);
  }

  /** An accepted put stores its entry as the most recently used one and keeps keys unique and ticks distinct. All
      other entries are untouched or dropped; those dropped for bytes were used less recently than every entry
      that stays, and the most recent of them would not have fitted. */
  lemma PutIsLeastRecentlyUsed(l: Level1, c: Tally, p: Partition, key: string, value: seq<Byte>, expires: nat,
                               maxEntries: nat, maxBytes: nat)
    requires 0 < |l.slots| && UniqueKeys(l.slots) && DistinctTicks(l)
    requires 0 < maxEntries && Accepts(key, value, maxBytes)
    ensures var t, k := l.slots, Target(l.slots, p, key, maxEntries);
            var end := Put(l, c, p, key, value, expires, maxEntries, maxBytes).level;
            && 0 <= k < |t| && end.slots[k] == Stored(p, key, value, expires, end.tick)
            && UniqueKeys(end.slots) && DistinctTicks(end)
            && Thinned(t, end.slots[k := t[k]]) && LeastRecent(t, end.slots[k := t[k]], k)
            && NoneToSpare(t, end.slots[k := t[k]], k, maxBytes - |value|)
  {
    hide Put, Target, Shrink, LeastRecent, NoneToSpare;
    var t, k := l.slots, Target(l.slots, p, key, maxEntries);
    PutInSteps(l, c, p, key, value, expires, maxEntries, maxBytes);
    TargetIsSound(t, p, key, maxEntries);
    var kept := Shrink(t, k, maxBytes - |value|);
    ShrinkIsMinimal(t, k, maxBytes - |value|);
    var end := Put(l, c, p, key, value, expires, maxEntries, maxBytes).level;
    assert end.slots[k := t[k]] == kept;
  }

  /** How many entries of other keys among the first `n` slots are in `t` but no longer in `u`. */
  function Removed(t: seq<Slot>, u: seq<Slot>, key: string, n: nat): nat
    requires n <= |t| == |u|
  {
    if n == 0 then 0
    else
      var x, y := t[n - 1], u[n - 1];
      Removed(t, u, key, n - 1) + if x.used && x.key != key && !(y.used && y.key == x.key) then 1 else 0
  }

  lemma {:induction false} RemovedCounts(t: seq<Slot>, kept: seq<Slot>, k: nat, x: Slot, n: nat)
    requires Thinned(t, kept) && k < |t| && kept[k] == t[k] && x.used && n <= |t|
    requires forall i :: 0 <= i < |t| && i != k ==> !(t[i].used && t[i].key == x.key)
    ensures Removed(t, kept[k := x], x.key, n) ==
            UsedSlots(t, n) - UsedSlots(kept, n) + if k < n && t[k].used && t[k].key != x.key then 1 else 0
  {
    if n > 0 {
      RemovedCounts(t, kept, k, x, n - 1);
    }
  }

  /** The eviction counter rises by exactly the number of entries of other keys that the put removes. */
  lemma PutCountsEvictions(l: Level1, c: Tally, p: Partition, key: string, value: seq<Byte>, expires: nat,
                           maxEntries: nat, maxBytes: nat)
    requires 0 < |l.slots| && UniqueKeys(l.slots) && DistinctTicks(l)
    requires 0 < maxEntries && Accepts(key, value, maxBytes)
    ensures var t, r := l.slots, Put(l, c, p, key, value, expires, maxEntries, maxBytes);
            r.tally == Tally(c.evictions + Removed(t, r.level.slots, key, |t|), c.failures)
  {
    hide Put, Target, Shrink, UniqueKeys, LeastRecent, NoneToSpare, Removed;
    var t, k := l.slots, Target(l.slots, p, key, maxEntries);
    PutInSteps(l, c, p, key, value, expires, maxEntries, maxBytes);
    TargetIsSound(t, p, key, maxEntries);
    ShrinkIsMinimal(t, k, maxBytes - |value|);
    RemovedCounts(t, Shrink(t, k, maxBytes - |value|), k, Stored(p, key, value, expires, l.tick + 1), |t|);
  }

  /** A lookup hits exactly if the table holds an entry of the key that has not expired and fits the caller; the entry then
      is the most recently used one, and everything else stays as it was. */
  lemma GetIsExact(l: Level1, p: Partition, key: string, room: nat, now: nat)
    requires UniqueKeys(l.slots) && DistinctTicks(l)
    ensures var r := Get(l, p, key, room, now);
            && (r.value.Some? <==> exists i :: 0 <= i < |l.slots| && Fits(l.slots[i], p, key, room, now))
            && forall i :: 0 <= i < |l.slots| && Fits(l.slots[i], p, key, room, now) ==>
                 && r.value == Some(l.slots[i].value) && r.level.tick == l.tick + 1
                 && r.level.slots == l.slots[i := l.slots[i].(touched := l.tick + 1)]
  {
    forall i | 0 <= i < |l.slots| && Fits(l.slots[i], p, key, room, now) ensures Lookup(l.slots, p, key, |l.slots|) == i {
      var k := Lookup(l.slots, p, key, |l.slots|);
      assert k >= 0 && l.slots[k].key == l.slots[i].key;
    }
  }

  /** What the partition limit counts: the used slots of the partition. */
  lemma {:induction false} EntriesIsNumber(t: seq<Slot>, p: Partition, n: nat)
    requires n <= |t|
    ensures Entries(t, p, n) == |set i | 0 <= i < n && t[i].used && t[i].partition == p|
  {
    var all := set i | 0 <= i < n && t[i].used && t[i].partition == p;
    if n > 0 {
      EntriesIsNumber(t, p, n - 1);
      var front := set i | 0 <= i < n - 1 && t[i].used && t[i].partition == p;
      if t[n - 1].used && t[n - 1].partition == p {
        assert all == front + {n - 1};
      } else {
        assert all == front;
      }
    }
  }

  /** The values in use, one behind the other. */
  function Payload(t: seq<Slot>): seq<Byte> {
    if t == [] then [] else (if t[0].used then t[0].value else []) + Payload(t[1..])
  }

  lemma {:induction false} PayloadGrows(t: seq<Slot>, x: Slot)
    ensures |Payload(t + [x])| == |Payload(t)| + if x.used then |x.value| else 0
  {
    if t == [] {
      assert t + [x] == [x] && Payload([x][1..]) == [];
    } else {
      assert (t + [x])[1..] == t[1..] + [x];
      PayloadGrows(t[1..], x);
    }
  }

  /** What the byte limit counts: the length of all values in use. */
  lemma {:induction false} BytesIsTotal(t: seq<Slot>, n: nat)
    requires n <= |t|
    ensures Bytes(t, n) == |Payload(t[..n])|
  {
    if n > 0 {
      BytesIsTotal(t, n - 1);
      assert t[..n] == t[..n - 1] + [t[n - 1]];
      PayloadGrows(t[..n - 1], t[n - 1]);
    }
  }

  predicate Stale(s: Slot, p: Partition, key: string, now: nat) {
    s.used && s.partition == p && s.key == key && s.expires <= now
  }

  /** A lookup that misses frees the slot of an expired entry of the key, if there is one, and changes nothing otherwise. */
  lemma MissIsExact(l: Level1, p: Partition, key: string, room: nat, now: nat)
    requires UniqueKeys(l.slots)
    ensures var r := Get(l, p, key, room, now);
            && (r.expired <==> exists i :: 0 <= i < |l.slots| && Stale(l.slots[i], p, key, now))
            && (r.expired ==> r.value.None?)
            && (r.value.None? && !r.expired ==> r.level == l)
            && forall i :: 0 <= i < |l.slots| && Stale(l.slots[i], p, key, now) ==>
                 && r.level.tick == l.tick && !r.level.slots[i].used
                 && forall j :: 0 <= j < |l.slots| && j != i ==> r.level.slots[j] == l.slots[j]
  {
    forall i | 0 <= i < |l.slots| && Stale(l.slots[i], p, key, now) ensures Lookup(l.slots, p, key, |l.slots|) == i {
      var k := Lookup(l.slots, p, key, |l.slots|);
      assert k >= 0 && l.slots[k].key == l.slots[i].key;
    }
  }

  predicate Fits(s: Slot, p: Partition, key: string, room: nat, now: nat) {
    s.used && s.partition == p && s.key == key && now < s.expires && |s.value| <= room
  }

  /** Least recent use: an entry that has just been hit is the last to go. If a put of another key removes it, it was the
      only entry of its partition in the slot the put chose, or no entry but the new one is left at all. */
  lemma HitIsLastToGo(l: Level1, p: Partition, key: string, room: nat, now: nat, i: nat, c: Tally, q: Partition,
                      other: string, value: seq<Byte>, expires: nat, maxEntries: nat, maxBytes: nat)
    requires 0 < |l.slots| && UniqueKeys(l.slots) && DistinctTicks(l) && i < |l.slots| && Fits(l.slots[i], p, key, room, now)
    requires other != key && 0 < maxEntries && Accepts(other, value, maxBytes)
    ensures var g := Get(l, p, key, room, now).level;
            var k, end := Target(g.slots, q, other, maxEntries), Put(g, c, q, other, value, expires, maxEntries, maxBytes).level;
            || end.slots[i] == g.slots[i]
            || (i == k && forall j :: 0 <= j < |l.slots| && j != i && g.slots[j].used ==> g.slots[j].partition != p)
            || (i != k && forall j :: 0 <= j < |l.slots| && j != k ==> !end.slots[j].used)
  {
    hide Shrink, Target, Entries, Oldest, Locate, FirstFree;
    GetIsExact(l, p, key, room, now);
    var g := Get(l, p, key, room, now).level;
    TouchKeeps(l, i);
    assert g == Touched(l, i);
    PutIsLeastRecentlyUsed(g, c, q, other, value, expires, maxEntries, maxBytes);
    TargetIsSound(g.slots, q, other, maxEntries);
    MostRecent(l, i);
    var k, end := Target(g.slots, q, other, maxEntries), Put(g, c, q, other, value, expires, maxEntries, maxBytes).level;
    var u := end.slots[k := g.slots[k]];
    if i != k && end.slots[i] != g.slots[i] {
      assert Evicted(g.slots, u, i);
      forall j | 0 <= j < |l.slots| && j != k ensures !end.slots[j].used {
        assert end.slots[j] == u[j];
      }
    }
  }

  function Touched(l: Level1, i: nat): Level1
    requires i < |l.slots|
  {
    Level1(l.slots[i := l.slots[i].(touched := l.tick + 1)], l.tick + 1)
  }

  lemma TouchKeeps(l: Level1, i: nat)
    requires i < |l.slots| && UniqueKeys(l.slots) && DistinctTicks(l)
    ensures UniqueKeys(Touched(l, i).slots) && DistinctTicks(Touched(l, i))
  {
  }

  lemma MostRecent(l: Level1, i: nat)
    requires i < |l.slots| && DistinctTicks(l)
    ensures forall j :: 0 <= j < |l.slots| && j != i && l.slots[j].used ==>
              Touched(l, i).slots[j].touched < Touched(l, i).slots[i].touched
  {
  }

  /** A put that is refused changes no entry. A value too long for a slot counts as a failure, a key too long does not; a
      value over the byte limit counts as a failure, and as an eviction if it would have displaced an entry. */
  lemma RefusalIsCounted(l: Level1, c: Tally, p: Partition, key: string, value: seq<Byte>, expires: nat, maxEntries: nat,
                         maxBytes: nat)
    requires 0 < |l.slots| && UniqueKeys(l.slots) && 0 < maxEntries && !Accepts(key, value, maxBytes)
    ensures Put(l, c, p, key, value, expires, maxEntries, maxBytes)
            == PutResult(l, if |value| > 4096 then c.(failures := c.failures + 1)
                            else if |key| >= 192 then c
                            else Tally(c.evictions + (if Displaces(l.slots, p, key, maxEntries) then 1 else 0), c.failures + 1))
  {
    hide Target, Displaces;
    TargetIsSound(l.slots, p, key, maxEntries);
  }
}
