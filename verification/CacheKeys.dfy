/** The full keys of the second cache level, and which of them a prefix scan meets. */
module CacheKeys {
  import opened OrderedStore
  import opened SharedSlots

  const PARTITION_NAMES: seq<string> := ["state", "object", "object_list", "device", "ip", "negative"]

  const BAR: string := "|"

  function Name(p: Partition): string {
    PARTITION_NAMES[p]
  }

  function Version(): string {
    "v2|"
  }

  function Backend(): string {
    "lmdb|"
  }

  function SpacePrefix(space: string): string {
    Version() + space + BAR + Backend()
  }

  function PartitionPrefix(space: string, p: Partition): string {
    SpacePrefix(space) + Name(p) + BAR
  }

  function FullKey(space: string, p: Partition, key: string): string {
    PartitionPrefix(space, p) + key
  }

  predicate NoBar(s: string) {
    '|' !in s
  }

  lemma PrefixDrops(a: string, x: string, y: string)
    ensures a + x <= a + y <==> x <= y
  {
    if a + x <= a + y {
      assert (a + x)[|a|..] == x && (a + y)[|a|..] == y;
      assert forall i :: 0 <= i < |x| ==> x[i] == (a + x)[|a| + i] == (a + y)[|a| + i];
    }
  }

  /** Fields without a bar can be told apart by the bar that ends them. */
  lemma FieldsMatch(a: string, b: string, x: string, y: string)
    requires NoBar(a) && NoBar(b)
    ensures a + BAR + x <= b + BAR + y <==> a == b && x <= y
  {
    var l, r := a + BAR + x, b + BAR + y;
    assert l[|a|] == '|' && r[|b|] == '|';
    assert |a| < |b| ==> r[|a|] == b[|a|];
    assert |b| < |a| ==> l[|b|] == a[|b|];
    if l <= r && |a| == |b| {
      assert a == l[..|a|] && b == r[..|b|];
    }
    if a == b {
      PrefixDrops(a + BAR, x, y);
    }
  }

  lemma NamesHaveNoBar(p: Partition, q: Partition)
    ensures NoBar(Name(p)) && (Name(p) == Name(q) <==> p == q)
  {
  }

  /** Two levels of fields between fixed texts `h` and `t`. */
  lemma NestedFieldsMatch(h: string, t: string, a: string, b: string, m: string, n: string, key: string)
    requires NoBar(a) && NoBar(b) && NoBar(m) && NoBar(n)
    ensures h + a + BAR + t + m + BAR <= h + b + BAR + t + n + BAR + key <==> a == b && m == n
    ensures h + a + BAR + t <= h + b + BAR + t + n + BAR + key <==> a == b
  {
    var x, y := m + BAR, n + BAR + key;
    assert h + a + BAR + t + m + BAR == h + (a + BAR + (t + x));
    assert h + a + BAR + t == h + (a + BAR + t);
    assert h + b + BAR + t + n + BAR + key == h + (b + BAR + (t + y));
    PrefixDrops(h, a + BAR + (t + x), b + BAR + (t + y));
    PrefixDrops(h, a + BAR + t, b + BAR + (t + y));
    FieldsMatch(a, b, t + x, t + y);
    FieldsMatch(a, b, t, t + y);
    PrefixDrops(t, x, y);
    assert x == m + BAR + "";
    FieldsMatch(m, n, "", key);
  }

  /** The scan of a partition meets exactly the keys of that partition of that namespace: "object|" is no prefix of
      an "object_list|" key. Namespaces must not contain the field separator. */
  lemma PartitionScanIsExact(space: string, p: Partition, space': string, q: Partition, key: string)
    requires NoBar(space) && NoBar(space')
    ensures HasPrefix(PartitionPrefix(space, p), FullKey(space', q, key)) <==> space == space' && p == q
    ensures HasPrefix(SpacePrefix(space), FullKey(space', q, key)) <==> space == space'
  {
    hide Version, Backend, Name, NoBar;
    NamesHaveNoBar(p, q);
    NamesHaveNoBar(q, p);
    NestedFieldsMatch(Version(), Backend(), space, space', Name(p), Name(q), key);
  }

  /** Full keys determine what they were made from. */
  lemma FullKeyInjective(space: string, p: Partition, key: string, q: Partition, key': string)
    requires FullKey(space, p, key) == FullKey(space, q, key')
    ensures p == q && key == key'
  {
    hide Name, NoBar, SpacePrefix;
    NamesHaveNoBar(p, q);
    NamesHaveNoBar(q, p);
    var a := SpacePrefix(space);
    assert FullKey(space, p, key) == a + (Name(p) + BAR + key) && FullKey(space, q, key') == a + (Name(q) + BAR + key');
    PrefixDrops(a, Name(p) + BAR + key, Name(q) + BAR + key');
    PrefixDrops(a, Name(q) + BAR + key', Name(p) + BAR + key);
    FieldsMatch(Name(p), Name(q), key, key');
    FieldsMatch(Name(q), Name(p), key', key);
  }

  /** In general, scanning one partition can meet a key of another one exactly when one of the two prefixes begins
      with the other. */
  lemma ScanMeetsForeignKeyIff(space: string, p: Partition, space': string, q: Partition)
    ensures (exists key :: HasPrefix(PartitionPrefix(space, p), FullKey(space', q, key))) <==>
            HasPrefix(PartitionPrefix(space, p), PartitionPrefix(space', q))
            || HasPrefix(PartitionPrefix(space', q), PartitionPrefix(space, p))
  {
    hide PartitionPrefix;
    var a, b := PartitionPrefix(space, p), PartitionPrefix(space', q);
    if HasPrefix(a, b) {
      assert FullKey(space', q, "") == b;
    } else if HasPrefix(b, a) {
      var key := a[|b|..];
      assert FullKey(space', q, key) == a;
    } else {
      forall key ensures !HasPrefix(a, FullKey(space', q, key)) {
        PrefixesCompare(a, b, FullKey(space', q, key));
      }
    }
  }

  lemma PrefixesCompare(a: string, b: string, k: string)
    requires b <= k
    ensures a <= k ==> a <= b || b <= a
  {
    assert a <= k ==> a == k[..|a|];
    assert b == k[..|b|];
  }

  /** A namespace that contains the separator is not isolated: clearing partition `p` of a namespace deletes every
      entry of the namespace whose name goes on, after a bar, like the keys of that partition. */
  lemma BarBreaksIsolation(space: string, p: Partition, q: Partition, key: string)
    ensures HasPrefix(PartitionPrefix(space, p), FullKey(space + BAR + Backend() + Name(p), q, key))
  {
    hide Version, Backend, Name;
    var rest := BAR + Backend() + Name(q) + BAR + key;
    assert FullKey(space + BAR + Backend() + Name(p), q, key) == PartitionPrefix(space, p) + rest[1..];
  }

  /** The longest name a namespace can have. */
  const NAME_MAX: nat := 95

  /** Some other namespace, with a name that is not too long, has a key that the scan of partition `p` meets. */
  ghost predicate MeetsForeign(space: string, p: Partition) {
    exists other: string, q: Partition, key: string ::
      other != space && |other| <= NAME_MAX && HasPrefix(PartitionPrefix(space, p), FullKey(other, q, key))
  }

  /** Exactly which namespaces are exposed: one without a bar in its name is met by foreign keys if and only if its name
      leaves room for the foreign name that goes on like its keys. */
  lemma ExposedIffShort(space: string, p: Partition)
    requires NoBar(space) && |space| <= NAME_MAX
    ensures MeetsForeign(space, p) <==> |space| + 6 + |Name(p)| <= NAME_MAX
  {
    hide FullKey, PartitionPrefix, Name;
    var other := space + BAR + Backend() + Name(p);
    assert |other| == |space| + 6 + |Name(p)|;
    if |other| <= NAME_MAX {
      BarBreaksIsolation(space, p, 0, "");
      assert other != space;
      assert HasPrefix(PartitionPrefix(space, p), FullKey(other, 0, ""));
    }
    forall foreign: string, q: Partition, key: string
      | foreign != space && HasPrefix(PartitionPrefix(space, p), FullKey(foreign, q, key))
      ensures |other| <= |foreign|
    {
      ForeignIsLong(space, p, foreign, q, key);
    }
  }

  /** A key of another namespace that begins like those of partition `p` has at least as much in its name. */
  lemma ForeignIsLong(space: string, p: Partition, foreign: string, q: Partition, key: string)
    requires NoBar(space) && foreign != space
    requires HasPrefix(PartitionPrefix(space, p), FullKey(foreign, q, key))
    ensures |space| + 6 + |Name(p)| <= |foreign|
  {
    hide Name, Version, NoBar;
    var rest, tail := Backend() + Name(p) + BAR, Backend() + (Name(q) + BAR + key);
    var mine, theirs := space + BAR + rest, foreign + BAR + tail;
    assert PartitionPrefix(space, p) == Version() + mine;
    assert FullKey(foreign, q, key) == Version() + theirs;
    PrefixDrops(Version(), mine, theirs);
    BarsOf(p);
    assert tail[0] == 'l';
    FieldIsLonger(space, rest, foreign, tail);
  }

  /** A field that goes on as `rest` does is a prefix of another field that goes on as `tail` does: either they are the
      same field, or the other one has taken up `rest` to its last bar. */
  lemma FieldIsLonger(space: string, rest: string, foreign: string, tail: string)
    requires NoBar(space) && space != foreign && space + BAR + rest <= foreign + BAR + tail
    requires 6 < |rest| && tail != [] && rest[5] != tail[0]
    requires forall at :: 0 <= at < |rest| - 1 ==> (rest[at] == '|' <==> at == 4)
    ensures |space| + |rest| <= |foreign|
  {
    var mine, theirs := space + BAR + rest, foreign + BAR + tail;
    assert forall i :: 0 <= i < |mine| ==> mine[i] == theirs[i];
    assert theirs[|foreign|] == '|' && theirs[|foreign| + 1] == tail[0];
    assert forall i :: 0 <= i < |space| ==> mine[i] == space[i] && space[i] != '|';
    assert |space| <= |foreign|;
    assert theirs[..|space|] == mine[..|space|] == space;
    assert theirs[..|foreign|] == foreign;
    assert |space| < |foreign|;
    assert forall i :: 0 <= i < |rest| ==> mine[|space| + 1 + i] == rest[i];
    var at := if |foreign| - |space| - 1 < |rest| - 1 then |foreign| - |space| - 1 else 4;
    assert rest[at] == '|';
  }

  /** The fields between the name and the key have their bars at known places. */
  lemma BarsOf(p: Partition)
    ensures var rest := Backend() + Name(p) + BAR;
            && |Name(p)| > 0 && |rest| == 6 + |Name(p)| && rest[5] != 'l'
            && forall at :: 0 <= at < 5 + |Name(p)| ==> (rest[at] == '|' <==> at == 4)
  {
    NamesHaveNoBar(p, p);
    var rest := Backend() + Name(p) + BAR;
    assert Backend() == ['l', 'm', 'd', 'b', '|'];
    assert rest[5] == Name(p)[0];
    forall at | 0 <= at < 5 + |Name(p)| ensures rest[at] == '|' <==> at == 4 {
      assert at >= 5 ==> rest[at] == Name(p)[at - 5];
    }
  }
}
