/** The second cache level: a key/value store ordered by key, scanned with a cursor. The store's own operations
    (ordered cursor, deletion at the cursor) are those of the embedded database; after a deletion the cursor
    stands on the entry that followed. One method is one write transaction. */
module OrderedStore {
  import opened Fnv
  import opened Wrappers

  const MAGIC: nat := 0x42414348
  const HEADER: nat := 24
  const KEY_BUFFER: nat := 512
  const NEVER: nat := 0xFFFF_FFFF_FFFF_FFFF

  /** What is stored under a key: a header with its payload, or something shorter than a header. */
  datatype Value =
    | Value(magic: nat, length: nat, expires: nat, checksum: nat, payload: seq<Byte>)
    | Stub(size: nat)

  datatype Entry = Entry(key: string, value: Value)

  function Size(v: Value): nat {
    match v case Value(_, _, _, _, payload) => HEADER + |payload| case Stub(size) => size
  }

  predicate Recognised(v: Value) {
    v.Value? && v.magic == MAGIC
  }

  predicate Live(v: Value, now: nat) {
    Recognised(v) && v.expires > now
  }

  /** The order of the store: bytewise, a proper prefix before its extensions. */
  predicate Less(a: string, b: string) {
    if b == "" then false
    else if a == "" then true
    else if a[0] != b[0] then a[0] < b[0]
    else Less(a[1..], b[1..])
  }

  predicate HasPrefix(prefix: string, key: string) {
    prefix <= key
  }

  ghost predicate Sorted(s: seq<Entry>) {
    forall i, j :: 0 <= i < j < |s| ==> Less(s[i].key, s[j].key)
  }

  lemma {:induction false} LessIrreflexive(a: string)
    ensures !Less(a, a)
  {
    if a != "" {
      LessIrreflexive(a[1..]);
    }
  }

  lemma {:induction false} PrefixNotGreater(prefix: string, key: string)
    requires HasPrefix(prefix, key)
    ensures !Less(key, prefix)
  {
    if prefix != "" {
      assert key[0] == prefix[0];
      PrefixNotGreater(prefix[1..], key[1..]);
    }
  }

  /** A key from `prefix` on that comes before some key with the prefix has the prefix itself. */
  lemma {:induction false} Between(prefix: string, key: string, next: string)
    requires !Less(key, prefix) && Less(key, next) && HasPrefix(prefix, next)
    ensures HasPrefix(prefix, key)
  {
    if prefix != "" {
      assert next[0] == prefix[0];
      Between(prefix[1..], key[1..], next[1..]);
      assert key == [key[0]] + key[1..] && prefix == [prefix[0]] + prefix[1..];
    }
  }

  /** What a pass removes: every entry with a prefix, the dead ones among them, or the entry of one key. */
  datatype Rule = Everything(prefix: string) | Dead(prefix: string, now: nat) | Exactly(key: string)

  predicate Doomed(rule: Rule, e: Entry) {
    match rule
    case Everything(prefix) => HasPrefix(prefix, e.key)
    case Dead(prefix, now) => HasPrefix(prefix, e.key) && !Live(e.value, now)
    case Exactly(key) => e.key == key
  }

  /** The store without the doomed entries. */
  function Without(s: seq<Entry>, rule: Rule): (r: seq<Entry>)
    ensures |r| <= |s|
  {
    if s == [] then []
    else Without(s[..|s| - 1], rule) + if Doomed(rule, s[|s| - 1]) then [] else [s[|s| - 1]]
  }

  /** The first position whose key is not below `prefix`. */
  function Seek(s: seq<Entry>, prefix: string): (k: nat)
    ensures k <= |s|
    ensures k < |s| ==> !Less(s[k].key, prefix)
    ensures forall i :: 0 <= i < k ==> Less(s[i].key, prefix)
  {
    if s == [] then 0
    else
      var k := Seek(s[..|s| - 1], prefix);
      if k < |s| - 1 then k else if !Less(s[|s| - 1].key, prefix) then |s| - 1 else |s|
  }

  /** Contiguity: the keys with a prefix are exactly those from the seek position up to the first one without it. */
  lemma PrefixIsContiguous(s: seq<Entry>, prefix: string, stop: nat)
    requires Sorted(s) && Seek(s, prefix) <= stop <= |s|
    requires forall i :: Seek(s, prefix) <= i < stop ==> HasPrefix(prefix, s[i].key)
    requires stop < |s| ==> !HasPrefix(prefix, s[stop].key)
    ensures forall i :: 0 <= i < |s| ==> (HasPrefix(prefix, s[i].key) <==> Seek(s, prefix) <= i < stop)
  {
    forall i | 0 <= i < |s| ensures HasPrefix(prefix, s[i].key) ==> Seek(s, prefix) <= i < stop {
      if HasPrefix(prefix, s[i].key) {
        PrefixNotGreater(prefix, s[i].key);
        if stop < i {
          StaysAbove(s, prefix, stop);
          Between(prefix, s[stop].key, s[i].key);
        }
      }
    }
  }

  lemma {:induction false} LessTransitive(a: string, b: string, c: string)
    requires Less(a, b) && Less(b, c)
    ensures Less(a, c)
  {
    if a != "" && a[0] == b[0] == c[0] {
      LessTransitive(a[1..], b[1..], c[1..]);
    }
  }

  lemma StaysAbove(s: seq<Entry>, prefix: string, i: nat)
    requires Sorted(s) && Seek(s, prefix) <= i < |s|
    ensures !Less(s[i].key, prefix)
  {
    var k := Seek(s, prefix);
    if k < i && Less(s[i].key, prefix) {
      LessTransitive(s[k].key, s[i].key, prefix);
    }
  }

  function CountPrefix(s: seq<Entry>, prefix: string): nat {
    if s == [] then 0
    else CountPrefix(s[..|s| - 1], prefix) + if HasPrefix(prefix, s[|s| - 1].key) then 1 else 0
  }

  function SizePrefix(s: seq<Entry>, prefix: string): nat {
    if s == [] then 0
    else SizePrefix(s[..|s| - 1], prefix) + if HasPrefix(prefix, s[|s| - 1].key) then Size(s[|s| - 1].value) else 0
  }

  predicate Eligible(prefix: string, e: Entry) {
    HasPrefix(prefix, e.key) && Recognised(e.value)
  }

  /** The better of the candidate so far and `e` for being dropped; an entry that never expires or whose key does
      not fit the key buffer is no candidate. */
  function Sooner(r: Option<Entry>, e: Entry): Option<Entry>
    requires (r.Some? ==> Recognised(r.value.value)) && Recognised(e.value)
  {
    if (r.None? || e.value.expires < r.value.value.expires) && e.value.expires < NEVER && |e.key| < KEY_BUFFER
    then Some(e) else r
  }

  /** The first of the entries with the prefix that expire soonest. */
  function Soonest(s: seq<Entry>, prefix: string): (r: Option<Entry>)
    ensures r.Some? ==> Eligible(prefix, r.value)
  {
    if s == [] then None
    else
      var r, e := Soonest(s[..|s| - 1], prefix), s[|s| - 1];
      if Eligible(prefix, e) then Sooner(r, e) else r
  }

  /** Drops the entry that expires soonest if the limit is exceeded. */
  function Relieve(s: seq<Entry>, prefix: string, exceeded: bool): seq<Entry> {
    var victim := Soonest(s, prefix);
    if exceeded && victim.Some? then Without(s, Exactly(victim.value.key)) else s
  }

  /** The partition pass of a prune: dead entries go, and one live entry if there are still too many. */
  function PrunePartition(s: seq<Entry>, prefix: string, now: nat, maxEntries: nat): seq<Entry> {
    var live := Without(s, Dead(prefix, now));
    Relieve(live, prefix, CountPrefix(live, prefix) > maxEntries)
  }

  /** The whole prune transaction: the partition pass, then one entry of the namespace if it holds too many bytes. */
  function Pruned(s: seq<Entry>, partition: string, space: string, now: nat, maxEntries: nat, maxBytes: nat): seq<Entry> {
    var t := PrunePartition(s, partition, now, maxEntries);
    Relieve(t, space, SizePrefix(t, space) > maxBytes)
  }

  lemma {:induction false} NoneDoomed(s: seq<Entry>, rule: Rule)
    requires forall i :: 0 <= i < |s| ==> !Doomed(rule, s[i])
    ensures Without(s, rule) == s
  {
    if s != [] {
      NoneDoomed(s[..|s| - 1], rule);
    }
  }

  lemma {:induction false} WithoutSplit(s: seq<Entry>, t: seq<Entry>, rule: Rule)
    ensures Without(s + t, rule) == Without(s, rule) + Without(t, rule)
  {
    if t == [] {
      assert s + t == s;
    } else {
      assert (s + t)[..|s + t| - 1] == s + t[..|t| - 1];
      WithoutSplit(s, t[..|t| - 1], rule);
    }
  }

  /** A scan over a prefix starts with nothing removed. */
  lemma ScanStarts(s: seq<Entry>, rule: Rule, prefix: string)
    requires rule == Everything(prefix) || (rule.Dead? && rule.prefix == prefix)
    ensures var k := Seek(s, prefix);
            Without(s[..k], rule) == s[..k] && CountPrefix(s[..k], prefix) == 0 && SizePrefix(s[..k], prefix) == 0
            && Soonest(s[..k], prefix) == None
  {
    var k := Seek(s, prefix);
    forall i | 0 <= i < k ensures !HasPrefix(prefix, s[..k][i].key) {
      if HasPrefix(prefix, s[i].key) {
        PrefixNotGreater(prefix, s[i].key);
      }
    }
    NoneDoomed(s[..k], rule);
    NothingThere(s[..k], prefix);
  }

  lemma {:induction false} NothingThere(s: seq<Entry>, prefix: string)
    requires forall i :: 0 <= i < |s| ==> !HasPrefix(prefix, s[i].key)
    ensures CountPrefix(s, prefix) == 0 && SizePrefix(s, prefix) == 0 && Soonest(s, prefix) == None
  {
    if s != [] {
      NothingThere(s[..|s| - 1], prefix);
    }
  }

  /** A scan that meets a key without the prefix, or the end, has seen every key that has it. */
  lemma ScanEnds(s: seq<Entry>, prefix: string, stop: nat)
    requires Sorted(s) && Seek(s, prefix) <= stop <= |s|
    requires forall i :: Seek(s, prefix) <= i < stop ==> HasPrefix(prefix, s[i].key)
    requires stop < |s| ==> !HasPrefix(prefix, s[stop].key)
    ensures forall i :: 0 <= i < |s| - stop ==> !HasPrefix(prefix, s[stop..][i].key)
  {
    PrefixIsContiguous(s, prefix, stop);
  }

  /** A scan of the entries with a prefix is over at `stop`: what it has left is what the whole pass leaves. */
  lemma ScanDone(s: seq<Entry>, rule: Rule, prefix: string, stop: nat)
    requires rule == Everything(prefix) || (rule.Dead? && rule.prefix == prefix)
    requires Sorted(s) && Seek(s, prefix) <= stop <= |s|
    requires forall i :: Seek(s, prefix) <= i < stop ==> HasPrefix(prefix, s[i].key)
    requires stop < |s| ==> !HasPrefix(prefix, s[stop].key)
    ensures Without(s, rule) == Without(s[..stop], rule) + s[stop..]
    ensures CountPrefix(Without(s, rule), prefix) == CountPrefix(Without(s[..stop], rule), prefix)
    ensures SizePrefix(Without(s, rule), prefix) == SizePrefix(Without(s[..stop], rule), prefix)
    ensures Soonest(Without(s, rule), prefix) == Soonest(Without(s[..stop], rule), prefix)
  {
    ScanEnds(s, prefix, stop);
    assert s == s[..stop] + s[stop..];
    hide Seek, Sorted, Less, Soonest, CountPrefix, SizePrefix, Without;
    NoneDoomed(s[stop..], rule);
    WithoutSplit(s[..stop], s[stop..], rule);
    NothingAdded(Without(s[..stop], rule), s[stop..], prefix);
  }

  lemma {:induction false} NothingAdded(s: seq<Entry>, t: seq<Entry>, prefix: string)
    requires forall i :: 0 <= i < |t| ==> !HasPrefix(prefix, t[i].key)
    ensures CountPrefix(s + t, prefix) == CountPrefix(s, prefix) && SizePrefix(s + t, prefix) == SizePrefix(s, prefix)
    ensures Soonest(s + t, prefix) == Soonest(s, prefix)
  {
    if t == [] {
      assert s + t == s;
    } else {
      assert (s + t)[..|s + t| - 1] == s + t[..|t| - 1];
      NothingAdded(s, t[..|t| - 1], prefix);
    }
  }

  lemma ScanStep(s: seq<Entry>, rule: Rule, i: nat)
    requires i < |s|
    ensures Without(s[..i + 1], rule) == Without(s[..i], rule) + if Doomed(rule, s[i]) then [] else [s[i]]
  {
    assert s[..i + 1][..i] == s[..i];
  }

  lemma Append(s: seq<Entry>, e: Entry, prefix: string)
    ensures CountPrefix(s + [e], prefix) == CountPrefix(s, prefix) + if HasPrefix(prefix, e.key) then 1 else 0
    ensures SizePrefix(s + [e], prefix) == SizePrefix(s, prefix) + if HasPrefix(prefix, e.key) then Size(e.value) else 0
    ensures Soonest(s + [e], prefix) ==
            var r := Soonest(s, prefix);
            if Eligible(prefix, e) then Sooner(r, e) else r
  {
    assert (s + [e])[..|s|] == s;
  }

  lemma MeasureStep(s: seq<Entry>, prefix: string, c: nat)
    requires c < |s| && HasPrefix(prefix, s[c].key)
    ensures SizePrefix(s[..c + 1], prefix) == SizePrefix(s[..c], prefix) + Size(s[c].value)
    ensures Soonest(s[..c + 1], prefix) ==
            if Recognised(s[c].value) then Sooner(Soonest(s[..c], prefix), s[c]) else Soonest(s[..c], prefix)
  {
    assert s[..c + 1] == s[..c] + [s[c]];
    Append(s[..c], s[c], prefix);
  }

  lemma MeasureDone(s: seq<Entry>, prefix: string, stop: nat)
    requires Sorted(s) && Seek(s, prefix) <= stop <= |s|
    requires forall i :: Seek(s, prefix) <= i < stop ==> HasPrefix(prefix, s[i].key)
    requires stop < |s| ==> !HasPrefix(prefix, s[stop].key)
    ensures SizePrefix(s, prefix) == SizePrefix(s[..stop], prefix) && Soonest(s, prefix) == Soonest(s[..stop], prefix)
  {
    ScanEnds(s, prefix, stop);
    assert s == s[..stop] + s[stop..];
    NothingAdded(s[..stop], s[stop..], prefix);
  }

  /** A scan removes a doomed entry. */
  lemma ScanDrops(s: seq<Entry>, rule: Rule, i: nat)
    requires i < |s| && Doomed(rule, s[i])
    ensures Without(s[..i + 1], rule) == Without(s[..i], rule)
  {
    ScanStep(s, rule, i);
  }

  /** A scan passes over a live entry. */
  lemma ScanKeeps(s: seq<Entry>, prefix: string, now: nat, i: nat)
    requires i < |s| && HasPrefix(prefix, s[i].key) && Live(s[i].value, now)
    ensures var kept, more := Without(s[..i], Dead(prefix, now)), Without(s[..i + 1], Dead(prefix, now));
            && more == kept + [s[i]] && |more| == |kept| + 1
            && CountPrefix(more, prefix) == CountPrefix(kept, prefix) + 1
            && Soonest(more, prefix) == Sooner(Soonest(kept, prefix), s[i])
  {
    ScanStep(s, Dead(prefix, now), i);
    Append(Without(s[..i], Dead(prefix, now)), s[i], prefix);
  }

  class Store {
    var entries: seq<Entry>
    var expirations: nat
    var evictions: nat

    /** Deletes every entry whose key begins with `prefix`. */
    method ClearPrefix(prefix: string)
      requires Sorted(entries)
      modifies this`entries
      ensures entries == Without(old(entries), Everything(prefix))
    {
      hide Seek, Sorted, Less, Without;
      ghost var s, rule := entries, Everything(prefix);
      var cursor := Seek(entries, prefix);
      ghost var i := cursor;
      ScanStarts(s, rule, prefix);
      while cursor < |entries| && HasPrefix(prefix, entries[cursor].key)
        invariant Seek(s, prefix) <= i <= |s| && cursor == |Without(s[..i], rule)|
        invariant entries == Without(s[..i], rule) + s[i..]
        invariant forall k :: Seek(s, prefix) <= k < i ==> HasPrefix(prefix, s[k].key)
        decreases |entries| - cursor
      {
        ScanDrops(s, rule, i);
        entries := entries[..cursor] + entries[cursor + 1..];
        i := i + 1;
      }
      ScanDone(s, rule, prefix, i);
    }

    /** Deletes the dead entries of a partition; counts those that stay and finds the one expiring soonest. */
    method DropDead(prefix: string, now: nat) returns (count: nat, oldest: Option<Entry>)
      requires Sorted(entries)
      modifies this`entries, this`expirations
      ensures entries == Without(old(entries), Dead(prefix, now))
      ensures count == CountPrefix(entries, prefix) && oldest == Soonest(entries, prefix)
      ensures expirations == old(expirations) + |old(entries)| - |entries|
    {
      hide Seek, Sorted, Less, Without, Soonest, CountPrefix, Sooner;
      ghost var s, rule := entries, Dead(prefix, now);
      var cursor := Seek(entries, prefix);
      ghost var i := cursor;
      count, oldest := 0, None;
      ScanStarts(s, rule, prefix);
      while cursor < |entries| && HasPrefix(prefix, entries[cursor].key)
        invariant Seek(s, prefix) <= i <= |s| && cursor == |Without(s[..i], rule)|
        invariant entries == Without(s[..i], rule) + s[i..]
        invariant forall k :: Seek(s, prefix) <= k < i ==> HasPrefix(prefix, s[k].key)
        invariant count == CountPrefix(Without(s[..i], rule), prefix)
        invariant oldest == Soonest(Without(s[..i], rule), prefix)
        invariant expirations == old(expirations) + |s| - |entries|
        decreases |entries| - cursor
      {
        var e := entries[cursor];
        assert e == s[i] && entries[cursor + 1..] == s[i + 1..];
        if !Live(e.value, now) {
          ScanDrops(s, rule, i);
          entries := entries[..cursor] + entries[cursor + 1..];
          expirations := expirations + 1;
        } else {
          ScanKeeps(s, prefix, now, i);
          count := count + 1;
          oldest := Sooner(oldest, e);
          cursor := cursor + 1;
        }
        i := i + 1;
        assert entries == Without(s[..i], rule) + s[i..];
      }
      ScanDone(s, rule, prefix, i);
    }

    /** Adds up the bytes under a prefix and finds the recognised entry expiring soonest. */
    method Measure(prefix: string) returns (bytes: nat, oldest: Option<Entry>)
      requires Sorted(entries)
      ensures bytes == SizePrefix(entries, prefix) && oldest == Soonest(entries, prefix)
    {
      hide Seek, Sorted, Less, Without, Soonest, SizePrefix, Sooner;
      ghost var s, rule := entries, Dead(prefix, 0);
      var cursor := Seek(entries, prefix);
      bytes, oldest := 0, None;
      ScanStarts(s, rule, prefix);
      while cursor < |entries| && HasPrefix(prefix, entries[cursor].key)
        invariant Seek(s, prefix) <= cursor <= |s|
        invariant forall k :: Seek(s, prefix) <= k < cursor ==> HasPrefix(prefix, s[k].key)
        invariant bytes == SizePrefix(s[..cursor], prefix) && oldest == Soonest(s[..cursor], prefix)
      {
        var e := entries[cursor];
        MeasureStep(s, prefix, cursor);
        bytes := bytes + Size(e.value);
        if Recognised(e.value) {
          oldest := Sooner(oldest, e);
        }
        cursor := cursor + 1;
      }
      MeasureDone(s, prefix, cursor);
    }

    /** The prune transaction. */
    method Prune(partition: string, space: string, now: nat, maxEntries: nat, maxBytes: nat)
      requires Sorted(entries)
      modifies this
      ensures Sorted(entries) && entries == Pruned(old(entries), partition, space, now, maxEntries, maxBytes)
    {
      hide Sorted, Without, Soonest, SizePrefix, CountPrefix;
      StaysSorted(entries, Dead(partition, now));
      var count, oldest := DropDead(partition, now);
      if count > maxEntries && oldest.Some? {
        DropKey(oldest.value.key);
        evictions := evictions + 1;
      }
      var bytes;
      bytes, oldest := Measure(space);
      if bytes > maxBytes && oldest.Some? {
        DropKey(oldest.value.key);
        evictions := evictions + 1;
      }
    }

    /** Deletes the entry of one key; part of the interface of the embedded database. */
    method DropKey(key: string)
      requires Sorted(entries)
      modifies this`entries
      ensures Sorted(entries) && entries == Without(old(entries), Exactly(key))
    {
      StaysSorted(entries, Exactly(key));
      entries := Without(entries, Exactly(key));
    }
  }

  lemma {:induction false} WithoutKeeps(s: seq<Entry>, rule: Rule)
    ensures forall e :: e in Without(s, rule) <==> e in s && !Doomed(rule, e)
  {
    if s != [] {
      WithoutKeeps(s[..|s| - 1], rule);
      assert s == s[..|s| - 1] + [s[|s| - 1]];
    }
  }

  lemma {:induction false} StaysSorted(s: seq<Entry>, rule: Rule)
    requires Sorted(s)
    ensures Sorted(Without(s, rule))
  {
    if s != [] {
      var front, last := s[..|s| - 1], s[|s| - 1];
      StaysSorted(front, rule);
      WithoutKeeps(front, rule);
      var r := Without(front, rule);
      forall i | 0 <= i < |r| ensures Less(r[i].key, last.key) {
        assert r[i] in front;
        var j :| 0 <= j < |front| && front[j] == r[i];
        assert s[j] == r[i];
      }
    }
  }

  /** The entry of a key, if there is one. */
  function Find(s: seq<Entry>, key: string): (r: Option<Value>)
    ensures r.Some? ==> Entry(key, r.value) in s
  {
    if s == [] then None
    else if s[|s| - 1].key == key then Some(s[|s| - 1].value)
    else Find(s[..|s| - 1], key)
  }

  /** Storing a value under a key, in place of what was there; part of the interface of the embedded database. */
  function Insert(s: seq<Entry>, key: string, v: Value): seq<Entry> {
    var rest := Without(s, Exactly(key));
    var k := Seek(rest, key);
    rest[..k] + [Entry(key, v)] + rest[k..]
  }

  lemma InsertReplaces(s: seq<Entry>, key: string, v: Value)
    ensures forall e :: e in Insert(s, key, v) <==> e == Entry(key, v) || (e in s && e.key != key)
  {
    hide Without, Seek;
    var rest := Without(s, Exactly(key));
    WithoutKeeps(s, Exactly(key));
    var k := Seek(rest, key);
    assert rest == rest[..k] + rest[k..];
    assert forall e :: e in rest <==> e in rest[..k] || e in rest[k..];
  }

  lemma {:induction false} LessTotal(a: string, b: string)
    ensures Less(a, b) || a == b || Less(b, a)
  {
    if a != "" && b != "" && a[0] == b[0] {
      LessTotal(a[1..], b[1..]);
      assert a == [a[0]] + a[1..] && b == [b[0]] + b[1..];
    }
  }

  lemma InsertStaysSorted(s: seq<Entry>, key: string, v: Value)
    requires Sorted(s)
    ensures Sorted(Insert(s, key, v))
  {
    hide Without, Less, Insert;
    var rest := Without(s, Exactly(key));
    StaysSorted(s, Exactly(key));
    WithoutKeeps(s, Exactly(key));
    var k, u := Seek(rest, key), Insert(s, key, v);
    assert u == rest[..k] + [Entry(key, v)] + rest[k..] by { InsertIs(s, key, v); }
    forall i | k <= i < |rest| ensures Less(key, rest[i].key) {
      StaysAbove(rest, key, i);
      assert rest[i] in rest && rest[i].key != key;
      LessTotal(key, rest[i].key);
    }
    forall i, j | 0 <= i < j < |u| ensures Less(u[i].key, u[j].key) {
      if i < k && k < j {
        assert Less(rest[i].key, rest[j - 1].key);
      }
    }
  }

  lemma InsertIs(s: seq<Entry>, key: string, v: Value)
    ensures var rest := Without(s, Exactly(key));
            Insert(s, key, v) == rest[..Seek(rest, key)] + [Entry(key, v)] + rest[Seek(rest, key)..]
  {
  }

  /** Can this entry be chosen as a victim? */
  predicate Mortal(e: Entry) {
    e.value.Value? && e.value.magic == MAGIC && e.value.expires < NEVER && |e.key| < KEY_BUFFER
  }

  /** Is this entry readable and unexpired? */
  predicate Valuable(e: Entry, now: nat) {
    e.value.Value? && e.value.magic == MAGIC && now < e.value.expires
  }

  /** The count of a prune is the number of entries with the prefix. */
  lemma {:induction false} CountIsNumber(s: seq<Entry>, prefix: string)
    ensures CountPrefix(s, prefix) == |set i | 0 <= i < |s| && prefix <= s[i].key|
  {
    var all := set i | 0 <= i < |s| && prefix <= s[i].key;
    if s != [] {
      var last := |s| - 1;
      CountIsNumber(s[..last], prefix);
      var front := set i | 0 <= i < |s[..last]| && prefix <= s[..last][i].key;
      assert all == front + if prefix <= s[last].key then {last} else {};
    }
  }

  lemma {:induction false} SoonestIsLeast(s: seq<Entry>, prefix: string)
    ensures match Soonest(s, prefix)
            case None => forall e :: e in s && HasPrefix(prefix, e.key) ==> !Mortal(e)
            case Some(v) => v in s && HasPrefix(prefix, v.key) && Mortal(v) &&
                            forall e :: e in s && HasPrefix(prefix, e.key) && Mortal(e) ==> v.value.expires <= e.value.expires
  {
    if s != [] {
      SoonestIsLeast(s[..|s| - 1], prefix);
      assert s == s[..|s| - 1] + [s[|s| - 1]];
    }
  }

  /** Of several candidates that expire at the same time the first one in the order of keys is chosen. */
  lemma {:induction false} SoonestIsFirst(s: seq<Entry>, prefix: string)
    ensures Soonest(s, prefix).Some? ==>
              exists i :: 0 <= i < |s| && Some(s[i]) == Soonest(s, prefix) &&
                forall j :: 0 <= j < i && prefix <= s[j].key && Mortal(s[j]) ==> s[i].value.expires < s[j].value.expires
  {
    if s != [] {
      var front := s[..|s| - 1];
      SoonestIsFirst(front, prefix);
      SoonestIsLeast(front, prefix);
      assert forall j :: 0 <= j < |front| ==> front[j] == s[j] && front[j] in front;
      if Soonest(front, prefix).Some? && Soonest(s, prefix) == Soonest(front, prefix) {
        var i :| 0 <= i < |front| && Some(front[i]) == Soonest(front, prefix) &&
                 forall j :: 0 <= j < i && prefix <= front[j].key && Mortal(front[j]) ==>
                   front[i].value.expires < front[j].value.expires;
        assert s[i] == front[i];
      } else if Soonest(s, prefix).Some? {
        assert Some(s[|s| - 1]) == Soonest(s, prefix);
      }
    }
  }

  lemma SortedKeysUnique(s: seq<Entry>, d: Entry, e: Entry)
    requires Sorted(s) && d in s && e in s && d.key == e.key
    ensures d == e
  {
    LessIrreflexive(d.key);
    var i :| 0 <= i < |s| && s[i] == d;
    var j :| 0 <= j < |s| && s[j] == e;
  }

  /** The partition pass removes exactly the dead entries of the partition and, if it still holds more than
      `maxEntries`, one live entry: one of those that expire soonest. */
  lemma PartitionPassRemoves(s: seq<Entry>, prefix: string, now: nat, maxEntries: nat)
    requires Sorted(s)
    ensures var live, t := Without(s, Dead(prefix, now)), PrunePartition(s, prefix, now, maxEntries);
            && (forall e :: e in live <==> e in s && !(HasPrefix(prefix, e.key) && !Valuable(e, now)))
            && (CountPrefix(live, prefix) <= maxEntries ==> t == live)
            && (CountPrefix(live, prefix) > maxEntries && (exists e :: e in live && HasPrefix(prefix, e.key) && Mortal(e)) ==>
                  exists v :: v in live && HasPrefix(prefix, v.key) && Mortal(v)
                    && (forall e :: e in live && HasPrefix(prefix, e.key) && Mortal(e) ==> v.value.expires <= e.value.expires)
                    && (forall e :: e in t <==> e in live && e != v))
  {
    hide Without, Soonest, CountPrefix, Sorted, Mortal, HasPrefix;
    var rule := Dead(prefix, now);
    var live := Without(s, rule);
    WithoutKeeps(s, rule);
    StaysSorted(s, rule);
    SoonestIsLeast(live, prefix);
    var victim := Soonest(live, prefix);
    if victim.Some? {
      WithoutKeeps(live, Exactly(victim.value.key));
      forall e | e in live ensures e.key == victim.value.key <==> e == victim.value {
        if e.key == victim.value.key {
          SortedKeysUnique(live, e, victim.value);
        }
      }
    }
  }

  /** The bytes under a prefix, header and payload, added up from the front. */
  function Total(s: seq<Entry>, prefix: string): nat {
    if s == [] then 0
    else
      var bytes := match s[0].value case Value(_, _, _, _, payload) => 24 + |payload| case Stub(size) => size;
      (if prefix <= s[0].key then bytes else 0) + Total(s[1..], prefix)
  }

  lemma {:induction false} TotalIsSize(s: seq<Entry>, prefix: string)
    ensures Total(s, prefix) == SizePrefix(s, prefix)
  {
    if |s| == 1 {
      assert s[..0] == [] && s[1..] == [];
    } else if |s| > 1 {
      var front, last := s[..|s| - 1], s[|s| - 1];
      TotalIsSize(front, prefix);
      TotalIsSize(s[1..], prefix);
      TotalIsSize(front[1..], prefix);
      assert s[1..][..|s[1..]| - 1] == front[1..];
      assert front[0] == s[0];
    }
  }

  lemma {:induction false} SizeWithout(s: seq<Entry>, v: Entry, prefix: string)
    requires forall i, j :: 0 <= i < j < |s| ==> s[i].key != s[j].key
    requires v in s && HasPrefix(prefix, v.key)
    ensures SizePrefix(Without(s, Exactly(v.key)), prefix) + Size(v.value) == SizePrefix(s, prefix)
  {
    var front, last := s[..|s| - 1], s[|s| - 1];
    var rule := Exactly(v.key);
    if last == v {
      assert forall i :: 0 <= i < |front| ==> front[i].key != v.key;
      NoneDoomed(front, rule);
      assert front + [] == front;
    } else {
      assert v in front;
      SizeWithout(front, v, prefix);
      assert last.key != v.key;
      Append(Without(front, rule), last, prefix);
    }
  }

  lemma SortedKeysDiffer(s: seq<Entry>)
    requires Sorted(s)
    ensures forall i, j :: 0 <= i < j < |s| ==> s[i].key != s[j].key
  {
    forall i, j | 0 <= i < j < |s| ensures s[i].key != s[j].key {
      LessIrreflexive(s[i].key);
    }
  }

  /** Entry `v` is one of those with the prefix that expire soonest. */
  ghost predicate FirstToGo(s: seq<Entry>, prefix: string, v: Entry) {
    && v in s && HasPrefix(prefix, v.key) && Mortal(v)
    && forall e :: e in s && HasPrefix(prefix, e.key) && Mortal(e) ==> v.value.expires <= e.value.expires
  }

  /** Relieving a store that is over its limit removes exactly one entry, of the earliest expiry, if any may go. */
  lemma RelieveRemoves(s: seq<Entry>, prefix: string, exceeded: bool)
    requires Sorted(s)
    ensures var t := Relieve(s, prefix, exceeded);
            && Sorted(t)
            && (!exceeded || (forall e :: e in s && HasPrefix(prefix, e.key) ==> !Mortal(e)) ==> t == s)
            && (exceeded && (exists e :: e in s && HasPrefix(prefix, e.key) && Mortal(e)) ==>
                  exists v :: FirstToGo(s, prefix, v) && (forall e :: e in t <==> e in s && e != v)
                              && SizePrefix(t, prefix) + Size(v.value) == SizePrefix(s, prefix))
  {
    hide Without, Soonest, Sorted, Mortal, HasPrefix, SizePrefix;
    SoonestIsLeast(s, prefix);
    var victim := Soonest(s, prefix);
    if victim.Some? {
      var v := victim.value;
      WithoutKeeps(s, Exactly(v.key));
      StaysSorted(s, Exactly(v.key));
      SortedKeysDiffer(s);
      SizeWithout(s, v, prefix);
      forall e | e in s ensures e.key == v.key <==> e == v {
        if e.key == v.key {
          SortedKeysUnique(s, e, v);
        }
      }
      assert FirstToGo(s, prefix, v);
    }
  }

  /** The namespace pass removes nothing while the namespace holds no more than `maxBytes`, or if no entry of it may go;
      else exactly one entry, one of those that expire soonest, and the total falls by its size. */
  lemma NamespacePassRemoves(s: seq<Entry>, partition: string, space: string, now: nat, maxEntries: nat, maxBytes: nat)
    requires Sorted(s)
    ensures var t, u := PrunePartition(s, partition, now, maxEntries), Pruned(s, partition, space, now, maxEntries, maxBytes);
            && Sorted(u)
            && (Total(t, space) <= maxBytes || (forall e :: e in t && HasPrefix(space, e.key) ==> !Mortal(e)) ==> u == t)
            && (Total(t, space) > maxBytes && (exists e :: e in t && HasPrefix(space, e.key) && Mortal(e)) ==>
                  exists v :: FirstToGo(t, space, v) && (forall e :: e in u <==> e in t && e != v)
                              && Total(u, space) + Size(v.value) == Total(t, space))
  {
    hide Without, Soonest, Sorted, Mortal, HasPrefix, SizePrefix, Relieve, Total, FirstToGo;
    var live := Without(s, Dead(partition, now));
    StaysSorted(s, Dead(partition, now));
    RelieveRemoves(live, partition, CountPrefix(live, partition) > maxEntries);
    var t := PrunePartition(s, partition, now, maxEntries);
    TotalIsSize(t, space);
    TotalIsSize(Pruned(s, partition, space, now, maxEntries, maxBytes), space);
    RelieveRemoves(t, space, SizePrefix(t, space) > maxBytes);
  }
}
