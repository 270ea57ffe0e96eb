/** The first cache level in shared memory: every method is one critical section of the process-shared lock. */
module SharedCache {
  import opened Fnv
  import opened SharedSlots
  import opened Wrappers

  class SharedCache {
    const slots: array<Slot>
    var tick: nat
    const generation: array<nat>
    var evictions: nat
    var failures: nat
    var expirations: nat

    ghost predicate Valid()
      reads this, slots, generation
    {
      slots.Length == SLOTS && generation.Length == PARTITIONS
    }

    ghost function View(): Level1
      reads this, slots
    {
      Level1(slots[..], tick)
    }

    constructor ()
      ensures Valid() && View() == Level1(seq(SLOTS, _ => BLANK), 0) && fresh(slots) && fresh(generation)
      ensures evictions == failures == expirations == 0
    {
      slots := new Slot[SLOTS](_ => BLANK);
      generation := new nat[PARTITIONS](_ => 0);
      tick, evictions, failures, expirations := 0, 0, 0, 0;
    }

    /** Drops the entries of partition `p`, of all partitions if negative, and moves their generations on. */
    method ClearPartition(p: int)
      requires Valid() && p < PARTITIONS
      modifies slots, generation
      ensures Valid() && View() == Clear(old(View()), p)
      ensures forall q :: 0 <= q < PARTITIONS ==>
                generation[q] == old(generation[q]) + if p < 0 || q == p then 1 else 0
    {
      for i := 0 to slots.Length
        invariant forall k :: 0 <= k < i ==> slots[k] == Clear(old(View()), p).slots[k]
        invariant forall k :: i <= k < slots.Length ==> slots[k] == old(slots[k])
        invariant forall q :: 0 <= q < PARTITIONS ==> generation[q] == old(generation[q])
      {
        if slots[i].used && (p < 0 || slots[i].partition == p) {
          slots[i] := slots[i].(used := false);
        }
      }
      assert slots[..] == Clear(old(View()), p).slots;
      if p < 0 {
        for q := 0 to PARTITIONS
          invariant slots[..] == Clear(old(View()), p).slots
          invariant forall k :: 0 <= k < PARTITIONS ==> generation[k] == old(generation[k]) + if k < q then 1 else 0
        {
          generation[q] := generation[q] + 1;
        }
      } else {
        generation[p] := generation[p] + 1;
      }
    }

    method Get(p: Partition, key: string, room: nat, now: nat) returns (value: Option<seq<Byte>>)
      requires Valid()
      modifies this`tick, this`expirations, slots
      ensures Valid()
      ensures var r := SharedSlots.Get(old(View()), p, key, room, now);
              View() == r.level && value == r.value && expirations == old(expirations) + if r.expired then 1 else 0
    {
      for i := 0 to slots.Length
        invariant Lookup(slots[..], p, key, i) == -1
        invariant slots[..] == old(slots[..]) && tick == old(tick) && expirations == old(expirations)
      {
        if slots[i].used && slots[i].partition == p && slots[i].key == key {
          LookupStops(slots[..], p, key, i);
          if slots[i].expires <= now {
            slots[i] := slots[i].(used := false);
            expirations := expirations + 1;
            return None;
          }
          if |slots[i].value| <= room {
            tick := tick + 1;
            slots[i] := slots[i].(touched := tick);
            return Some(slots[i].value);
          }
          return None;
        }
      }
      return None;
    }

    method Put(p: Partition, key: string, value: seq<Byte>, expires: nat, maxEntries: nat, maxBytes: nat)
      requires Valid()
      modifies this`tick, this`evictions, this`failures, slots
      ensures Valid()
      ensures PutResult(View(), Tally(evictions, failures)) ==
              SharedSlots.Put(old(View()), Tally(old(evictions), old(failures)), p, key, value, expires, maxEntries, maxBytes)
    {
      hide Target, Displaces, Shrink, UsedSlots, Bytes;
      if |value| > VALUE_MAX || |key| >= KEY_MAX {
        if |value| > VALUE_MAX {
          failures := failures + 1;
        }
        return;
      }
      var target, usedBytes, displaces := ChooseTarget(p, key, maxEntries);
      if displaces {
        evictions := evictions + 1;
      }
      if target < 0 || |value| > maxBytes {
        failures := failures + 1;
        return;
      }
      FreeBytes(target, usedBytes, |value|, maxBytes);
      tick := tick + 1;
      slots[target] := Slot(true, p, key, value, expires, tick);
    }

    /** The scan of all slots that finds the slot to write, and adds up the bytes in use. */
    method ChooseTarget(p: Partition, key: string, maxEntries: nat) returns (target: int, usedBytes: nat, displaces: bool)
      requires Valid()
      ensures target == Target(slots[..], p, key, maxEntries) && usedBytes == Bytes(slots[..], slots.Length)
      ensures displaces <==> Displaces(slots[..], p, key, maxEntries)
    {
      hide Target, Displaces, Locate, FirstFree, Oldest, Entries, Bytes;
      var lru, globalLru, found, count := -1, -1, false, 0;
      target, usedBytes := -1, 0;
      ghost var t := slots[..];
      ScanStart(t, p, key);
      for i := 0 to slots.Length
        invariant usedBytes == Bytes(t, i) && count == Entries(t, p, i)
        invariant found <==> Locate(t, key, i) >= 0
        invariant target == if found then Locate(t, key, i) else FirstFree(t, i)
        invariant lru == Oldest(t, p, -1, i) && globalLru == Oldest(t, -1, -1, i)
      {
        ScanStep(t, p, key, i);
        if slots[i].used {
          usedBytes := usedBytes + |slots[i].value|;
          if slots[i].partition == p {
            count := count + 1;
          }
        }
        if slots[i].used && slots[i].key == key {
          target, found := i, true;
        }
        if !slots[i].used && target < 0 {
          target := i;
        }
        if slots[i].used && slots[i].partition == p && (lru < 0 || slots[i].touched < slots[lru].touched) {
          lru := i;
        }
        if slots[i].used && (globalLru < 0 || slots[i].touched < slots[globalLru].touched) {
          globalLru := i;
        }
      }
      ChosenTarget(t, p, key, maxEntries);
      displaces := false;
      if !found && (target < 0 || count >= maxEntries) {
        target := if lru >= 0 then lru else globalLru;
        displaces := target >= 0;
      }
    }

    method FindVictim(target: nat) returns (victim: int)
      requires Valid()
      ensures victim == Oldest(slots[..], -1, target, slots.Length)
    {
      victim := -1;
      ghost var t := slots[..];
      for i := 0 to slots.Length
        invariant victim == Oldest(t, -1, target, i)
      {
        if i != target && slots[i].used && (victim < 0 || slots[i].touched < slots[victim].touched) {
          victim := i;
        }
      }
    }

    /** Drops least recently used entries until `length` more bytes fit beside those that stay. */
    method FreeBytes(target: nat, usedBytes: nat, length: nat, maxBytes: nat)
      requires Valid() && target < slots.Length && length <= maxBytes && usedBytes == Bytes(slots[..], slots.Length)
      modifies this`evictions, slots
      ensures Valid() && slots[..] == Shrink(old(slots[..]), target, maxBytes - length)
      ensures evictions == old(evictions) + UsedSlots(old(slots[..]), SLOTS) - UsedSlots(slots[..], SLOTS)
    {
      ghost var goal := Shrink(slots[..], target, maxBytes - length);
      hide UsedSlots, Bytes;
      var projected := usedBytes - (if slots[target].used then |slots[target].value| else 0) + length;
      while projected > maxBytes
        invariant Valid() && Shrink(slots[..], target, maxBytes - length) == goal
        invariant projected == Others(slots[..], target) + length
        invariant evictions + UsedSlots(slots[..], SLOTS) == old(evictions) + UsedSlots(old(slots[..]), SLOTS)
        decreases UsedSlots(slots[..], SLOTS)
      {
        ghost var t := slots[..];
        var victim := FindVictim(target);
        if victim < 0 {
          NoCandidate(t, target);
          assert false;
        }
        projected := projected - |slots[victim].value|;
        UsedAfterDrop(t, victim, SLOTS);
        BytesAfterDrop(t, victim, SLOTS);
        slots[victim] := slots[victim].(used := false);
        evictions := evictions + 1;
        assert slots[..] == t[victim := Dropped(t[victim])];
      }
    }
  }

  lemma ScanStart(t: seq<Slot>, p: Partition, key: string)
    ensures Bytes(t, 0) == 0 && Entries(t, p, 0) == 0 && Locate(t, key, 0) == -1 && FirstFree(t, 0) == -1
    ensures Oldest(t, p, -1, 0) == -1 && Oldest(t, -1, -1, 0) == -1
  {
  }

  /** What one more slot does to everything the scan keeps. */
  lemma ScanStep(t: seq<Slot>, p: Partition, key: string, i: nat)
    requires i < |t|
    ensures Bytes(t, i + 1) == Bytes(t, i) + if t[i].used then |t[i].value| else 0
    ensures Entries(t, p, i + 1) == Entries(t, p, i) + if t[i].used && t[i].partition == p then 1 else 0
    ensures Locate(t, key, i + 1) == if t[i].used && t[i].key == key then i else Locate(t, key, i)
    ensures FirstFree(t, i + 1) == if FirstFree(t, i) < 0 && !t[i].used then i else FirstFree(t, i)
    ensures Oldest(t, p, -1, i + 1) == Older(t, Oldest(t, p, -1, i), i, t[i].partition == p)
    ensures Oldest(t, -1, -1, i + 1) == Older(t, Oldest(t, -1, -1, i), i, true)
  {
  }

  function Older(t: seq<Slot>, k: int, i: nat, eligible: bool): int
    requires -1 <= k < |t| && i < |t|
  {
    if t[i].used && eligible && (k < 0 || t[i].touched < t[k].touched) then i else k
  }

  /** The target and the eviction it brings, from what one scan of the table yields. */
  lemma ChosenTarget(t: seq<Slot>, p: Partition, key: string, maxEntries: nat)
    ensures var found, free := Locate(t, key, |t|) >= 0, FirstFree(t, |t|);
            var lru, globalLru := Oldest(t, p, -1, |t|), Oldest(t, -1, -1, |t|);
            var full := !found && (free < 0 || Entries(t, p, |t|) >= maxEntries);
            var victim := if lru >= 0 then lru else globalLru;
            && Target(t, p, key, maxEntries) == (if found then Locate(t, key, |t|) else if full then victim else free)
            && (Displaces(t, p, key, maxEntries) <==> full && victim >= 0)
  {
  }

  lemma {:induction false} LookupStops(t: seq<Slot>, p: Partition, key: string, i: nat)
    requires i < |t| && Lookup(t, p, key, i) == -1 && t[i].used && t[i].partition == p && t[i].key == key
    ensures Lookup(t, p, key, |t|) == i
  {
  }
}
