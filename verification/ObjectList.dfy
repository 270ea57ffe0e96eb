/** The server's dynamic Object_List property: the device itself followed by the registered objects, in the order of
    their registration. Objects are kept under the key (type << 22 | instance). */
module ObjectList {
  import opened Fnv
  import opened Wrappers

  const INSTANCES: nat := 0x40_0000
  const TYPES: nat := 0x400
  const DEVICE_TYPE: nat := 8

  datatype ObjectId = ObjectId(kind: nat, instance: nat)

  predicate ValidId(id: ObjectId) {
    id.kind < TYPES && id.instance < INSTANCES
  }

  function Key(id: ObjectId): nat {
    id.kind * INSTANCES + id.instance
  }

  function FromKey(key: nat): ObjectId {
    ObjectId(key / INSTANCES, key % INSTANCES)
  }

  /** Keys and identifiers determine each other. */
  lemma KeyRoundTrip(id: ObjectId, key: nat)
    requires ValidId(id)
    ensures FromKey(Key(id)) == id && Key(FromKey(key)) == key
  {
  }

  const OBJECT_ID_TAG: Byte := 0xC4

  /** An object identifier as application data: a tag and the key in four octets, most significant first
      (clause 20.2.14 of ASHRAE 135). */
  function EncodeId(id: ObjectId): (bytes: seq<Byte>)
    requires ValidId(id)
    ensures |bytes| == 5
  {
    var k := Key(id);
    [OBJECT_ID_TAG, k / 0x100_0000 % 256, k / 0x1_0000 % 256, k / 0x100 % 256, k % 256]
  }

  function Word32(a: nat, b: nat, c: nat, d: nat): nat {
    a * 0x100_0000 + b * 0x1_0000 + c * 0x100 + d
  }

  lemma OctetsAddUp(k: nat)
    requires k < 0x1_0000_0000
    ensures Word32(k / 0x100_0000 % 256, k / 0x1_0000 % 256, k / 0x100 % 256, k % 256) == k
  {
    var a := k / 0x100;
    var b := a / 0x100;
    DivideTwice(k, b);
    assert b == 0x100 * (b / 0x100) + b % 0x100 && a == 0x100 * b + a % 0x100 && k == 0x100 * a + k % 0x100;
    DivideThrice(k, b / 0x100);
  }

  lemma DivideTwice(k: nat, b: nat)
    requires b == k / 0x100 / 0x100
    ensures k / 0x1_0000 == b
  {
  }

  lemma DivideThrice(k: nat, c: nat)
    requires c == k / 0x100 / 0x100 / 0x100
    ensures k / 0x100_0000 == c
  {
  }

  function DecodeId(bytes: seq<Byte>): ObjectId
    requires |bytes| == 5
  {
    FromKey(Word32(bytes[1], bytes[2], bytes[3], bytes[4]))
  }

  lemma IdRoundTrip(id: ObjectId)
    requires ValidId(id)
    ensures DecodeId(EncodeId(id)) == id
  {
    OctetsAddUp(Key(id));
    KeyRoundTrip(id, Key(id));
  }

  /** An unsigned integer as application data: a tag that tells how many octets follow, then the octets. */
  function EncodeUnsigned(n: nat): (bytes: seq<Byte>)
    requires n < 0x1_0000_0000
    ensures 2 <= |bytes| <= 5
  {
    if n < 0x100 then [0x21, n]
    else if n < 0x1_0000 then [0x22, n / 0x100, n % 0x100]
    else if n < 0x100_0000 then [0x23, n / 0x1_0000, n / 0x100 % 0x100, n % 0x100]
    else [0x24, n / 0x100_0000, n / 0x1_0000 % 0x100, n / 0x100 % 0x100, n % 0x100]
  }

  /** The keys other than `own`, in order. */
  function Foreign(keys: seq<nat>, own: nat): seq<nat> {
    if keys == [] then []
    else Foreign(keys[..|keys| - 1], own) + if keys[|keys| - 1] == own then [] else [keys[|keys| - 1]]
  }

  /** The whole property: the device first, then the registered objects. */
  function Listing(keys: seq<nat>, device: nat): (ids: seq<ObjectId>)
  {
    [ObjectId(DEVICE_TYPE, device)] + Ids(Foreign(keys, Key(ObjectId(DEVICE_TYPE, device))))
  }

  function Ids(keys: seq<nat>): (ids: seq<ObjectId>)
    ensures |ids| == |keys|
  {
    seq(|keys|, i requires 0 <= i < |keys| => FromKey(keys[i]))
  }

  ghost predicate Distinct<T>(s: seq<T>) {
    forall i, j :: 0 <= i < j < |s| ==> s[i] != s[j]
  }

  function Added(keys: seq<nat>, key: nat, own: nat): seq<nat> {
    if key == own || key in keys then keys else keys + [key]
  }

  function Without(keys: seq<nat>, key: nat): seq<nat> {
    Foreign(keys, key)
  }

  lemma {:induction false} ForeignKeeps(keys: seq<nat>, own: nat)
    ensures forall k :: k in Foreign(keys, own) <==> k in keys && k != own
    ensures own !in keys ==> Foreign(keys, own) == keys
    ensures Distinct(keys) ==> Distinct(Foreign(keys, own))
  {
    if keys != [] {
      var front, last := keys[..|keys| - 1], keys[|keys| - 1];
      ForeignKeeps(front, own);
      assert keys == front + [last];
      var kept := Foreign(front, own);
      if Distinct(keys) {
        assert forall i :: 0 <= i < |front| ==> front[i] == keys[i];
        assert last !in front;
        assert Distinct(front);
        assert forall i :: 0 <= i < |kept| ==> kept[i] in front;
      }
    }
  }

  class LocalObjects {
    const device: nat
    /** The ordered key set of the hash table. */
    var keys: seq<nat>

    ghost predicate Valid()
      reads this
    {
      && device < INSTANCES && Distinct(keys) && Key(ObjectId(DEVICE_TYPE, device)) !in keys
      && forall k :: k in keys ==> ValidId(FromKey(k))
    }

    ghost function Listed(): (ids: seq<ObjectId>)
      requires Valid()
      reads this
      ensures |ids| <= |keys| + 1 && forall id :: id in ids ==> ValidId(id)
    {
      ListedValid(keys, device);
      Listing(keys, device)
    }

    constructor (device: nat)
      requires device < INSTANCES
      ensures Valid() && this.device == device && keys == []
    {
      this.device := device;
      keys := [];
    }

    /** Registers an object; the device itself cannot be registered, and registering twice changes nothing. */
    method Add(id: ObjectId)
      requires Valid() && ValidId(id)
      modifies this
      ensures Valid() && keys == Added(old(keys), Key(id), Key(ObjectId(DEVICE_TYPE, device)))
    {
      if id == ObjectId(DEVICE_TYPE, device) {
        return;
      }
      KeyRoundTrip(id, Key(id));
      KeyRoundTrip(ObjectId(DEVICE_TYPE, device), 0);
      if Key(id) !in keys {
        keys := keys + [Key(id)];
      }
    }

    method Remove(id: ObjectId)
      requires Valid() && ValidId(id)
      modifies this
      ensures Valid() && keys == Without(old(keys), Key(id))
    {
      ForeignKeeps(keys, Key(id));
      keys := Without(keys, Key(id));
    }

    method Count() returns (count: nat)
      requires Valid()
      ensures count == |Listed()|
    {
      var own := Key(ObjectId(DEVICE_TYPE, device));
      count := 1;
      for i := 0 to |keys|
        invariant count == 1 + |Foreign(keys[..i], own)|
      {
        ForeignStep(keys, own, i);
        if keys[i] != own {
          count := count + 1;
        }
      }
      assert keys[..|keys|] == keys;
    }

    /** The object at a position of the list, counted from one. */
    method Item(index: nat) returns (id: Option<ObjectId>)
      requires Valid()
      ensures id == if 1 <= index <= |Listed()| then Some(Listed()[index - 1]) else None
    {
      var own := Key(ObjectId(DEVICE_TYPE, device));
      if index == 1 {
        return Some(ObjectId(DEVICE_TYPE, device));
      }
      var current := 1;
      for i := 0 to |keys|
        invariant current == 1 + |Foreign(keys[..i], own)|
        invariant current < index || index == 0
      {
        ForeignStep(keys, own, i);
        if keys[i] == own {
          continue;
        }
        current := current + 1;
        if current == index {
          ForeignPrefix(keys, own, i + 1);
          return Some(FromKey(keys[i]));
        }
      }
      assert keys[..|keys|] == keys;
      return None;
    }

    /** Encodes what a read of the property returns: the number of objects for index 0, one object for a positive
        index, the whole list for no index. Fails for an index beyond the list and for a list that does not fit
        `size` bytes. The buffer has room for one identifier more, as the fit is checked after writing. */
    method Encode(index: Option<nat>, buffer: array<Byte>, size: nat) returns (length: int)
      requires Valid() && buffer.Length >= size + 5 && |keys| + 1 < 0x1_0000_0000
      modifies buffer
      ensures match PropertyBytes(Listed(), index, size)
              case None => length == -1
              case Some(bytes) => length == |bytes| && buffer[..length] == bytes
    {
      var count := Count();
      var bytes: seq<Byte>;
      if index == Some(0) {
        bytes := EncodeUnsigned(count);
        WriteAt(buffer, 0, bytes);
        return |bytes|;
      }
      if index.Some? {
        var id := Item(index.value);
        if id == None {
          return -1;
        }
        bytes := EncodeId(id.value);
        WriteAt(buffer, 0, bytes);
        return |bytes|;
      }
      var total := 0;
      for i := 1 to count + 1
        invariant total == 5 * (i - 1) <= size
        invariant buffer[..total] == Concat(Listed()[..i - 1])
      {
        var id := Item(i);
        bytes := EncodeId(id.value);
        WriteAt(buffer, total, bytes);
        ConcatStep(Listed(), i - 1);
        if total + |bytes| > size {
          return -1;
        }
        total := total + |bytes|;
      }
      assert Listed()[..count] == Listed();
      return total;
    }
  }

  method WriteAt(buffer: array<Byte>, at: nat, bytes: seq<Byte>)
    requires at + |bytes| <= buffer.Length
    modifies buffer
    ensures buffer[..at + |bytes|] == old(buffer[..at]) + bytes
  {
    for i := 0 to |bytes|
      invariant buffer[..at + i] == old(buffer[..at]) + bytes[..i]
    {
      buffer[at + i] := bytes[i];
    }
  }

  /** The encodings of some objects, one after the other. */
  function Concat(ids: seq<ObjectId>): (bytes: seq<Byte>)
    requires forall id :: id in ids ==> ValidId(id)
    ensures |bytes| == 5 * |ids|
  {
    if ids == [] then []
    else
      assert forall id :: id in ids[..|ids| - 1] ==> id in ids;
      Concat(ids[..|ids| - 1]) + EncodeId(ids[|ids| - 1])
  }

  lemma ConcatStep(ids: seq<ObjectId>, i: nat)
    requires i < |ids| && forall id :: id in ids ==> ValidId(id)
    ensures Concat(ids[..i + 1]) == Concat(ids[..i]) + EncodeId(ids[i])
  {
    assert ids[..i + 1][..i] == ids[..i];
  }

  /** What a read of the property returns, from the list of objects. */
  function PropertyBytes(ids: seq<ObjectId>, index: Option<nat>, size: nat): Option<seq<Byte>>
    requires |ids| < 0x1_0000_0000 && forall id :: id in ids ==> ValidId(id)
  {
    match index
    case None => if |Concat(ids)| <= size then Some(Concat(ids)) else None
    case Some(i) =>
      if i == 0 then Some(EncodeUnsigned(|ids|))
      else if i <= |ids| then Some(EncodeId(ids[i - 1]))
      else None
  }

  lemma ListedValid(keys: seq<nat>, device: nat)
    requires device < INSTANCES && forall k :: k in keys ==> ValidId(FromKey(k))
    ensures forall id :: id in Listing(keys, device) ==> ValidId(id)
    ensures |Listing(keys, device)| <= |keys| + 1
  {
    ForeignKeeps(keys, Key(ObjectId(DEVICE_TYPE, device)));
    ForeignShorter(keys, Key(ObjectId(DEVICE_TYPE, device)));
  }

  lemma {:induction false} ForeignShorter(keys: seq<nat>, own: nat)
    ensures |Foreign(keys, own)| <= |keys|
  {
    if keys != [] {
      ForeignShorter(keys[..|keys| - 1], own);
    }
  }

  /** The list enumerates the device and the registered objects, each exactly once, the device first. */
  lemma ListingIsEnumeration(keys: seq<nat>, device: nat)
    requires device < INSTANCES && Distinct(keys) && Key(ObjectId(DEVICE_TYPE, device)) !in keys
    requires forall k :: k in keys ==> ValidId(FromKey(k))
    ensures var ids := Listing(keys, device);
            && |ids| == |keys| + 1 && Distinct(ids) && ids[0] == ObjectId(DEVICE_TYPE, device)
            && forall id :: ValidId(id) ==> (id in ids <==> id == ObjectId(DEVICE_TYPE, device) || Key(id) in keys)
  {
    hide Key, FromKey, Foreign;
    var own, ids := Key(ObjectId(DEVICE_TYPE, device)), Listing(keys, device);
    ForeignKeeps(keys, own);
    KeyRoundTrip(ObjectId(DEVICE_TYPE, device), 0);
    forall i | 0 <= i < |keys| ensures ids[i + 1] == FromKey(keys[i]) && Key(ids[i + 1]) == keys[i] {
      KeyRoundTrip(ObjectId(DEVICE_TYPE, device), keys[i]);
    }
    DistinctByKey(ids, [own] + keys);
    forall id | ValidId(id) ensures id in ids <==> id == ObjectId(DEVICE_TYPE, device) || Key(id) in keys {
      KeyRoundTrip(id, 0);
      if Key(id) in keys {
        var i :| 0 <= i < |keys| && keys[i] == Key(id);
        assert ids[i + 1] == id;
      }
    }
  }

  lemma DistinctByKey(ids: seq<ObjectId>, keys: seq<nat>)
    requires |ids| == |keys| && Distinct(keys) && forall i :: 0 <= i < |keys| ==> Key(ids[i]) == keys[i]
    ensures Distinct(ids)
  {
    hide Key;
  }

  /** The objects registered after a sequence of registrations and removals. */
  datatype Change = Add(id: ObjectId) | Remove(id: ObjectId)

  function KeysAfter(changes: seq<Change>, own: nat): seq<nat> {
    if changes == [] then []
    else
      var before := KeysAfter(changes[..|changes| - 1], own);
      match changes[|changes| - 1]
      case Add(id) => Added(before, Key(id), own)
      case Remove(id) => Without(before, Key(id))
  }

  /** An object is registered if it was added and not removed since. */
  predicate Registered(changes: seq<Change>, id: ObjectId) {
    changes != [] &&
    (changes[|changes| - 1] == Add(id) || (changes[|changes| - 1] != Remove(id) && Registered(changes[..|changes| - 1], id)))
  }

  /** After any sequence of registrations and removals, the list holds the device and exactly the objects added and
      not removed since, none twice. */
  lemma {:induction false} RegistryIsFaithful(changes: seq<Change>, device: nat)
    requires device < INSTANCES && forall c :: c in changes ==> ValidId(c.id)
    ensures var keys := KeysAfter(changes, Key(ObjectId(DEVICE_TYPE, device)));
            && Distinct(keys) && Key(ObjectId(DEVICE_TYPE, device)) !in keys
            && (forall k :: k in keys ==> ValidId(FromKey(k)))
            && forall id :: ValidId(id) && id != ObjectId(DEVICE_TYPE, device) ==>
                 (id in Listing(keys, device) <==> Registered(changes, id))
  {
    var own := Key(ObjectId(DEVICE_TYPE, device));
    var keys := KeysAfter(changes, own);
    if changes != [] {
      var front, last := changes[..|changes| - 1], changes[|changes| - 1];
      assert changes == front + [last];
      RegistryIsFaithful(front, device);
      var before := KeysAfter(front, own);
      ListingIsEnumeration(before, device);
      KeyRoundTrip(last.id, 0);
      ForeignKeeps(before, Key(last.id));
    }
    ListingIsEnumeration(keys, device);
    forall id | ValidId(id) && id != ObjectId(DEVICE_TYPE, device)
      ensures id in Listing(keys, device) <==> Registered(changes, id)
    {
      KeyRoundTrip(id, 0);
      KeyRoundTrip(ObjectId(DEVICE_TYPE, device), 0);
    }
  }

  /** What reading the elements 1 to `n` one by one returns, put together. */
  function Joined(ids: seq<ObjectId>, n: nat): seq<Byte>
    requires n <= |ids| < 0x1_0000_0000 && forall id :: id in ids ==> ValidId(id)
  {
    if n == 0 then [] else Joined(ids, n - 1) + PropertyBytes(ids, Some(n), 0).value
  }

  /** Reading one element: the indices from 1 on give the objects of the list in order, larger indices fail. */
  lemma ElementReadsBack(ids: seq<ObjectId>, i: nat, size: nat)
    requires |ids| < 0x1_0000_0000 && forall id :: id in ids ==> ValidId(id)
    requires 1 <= i
    ensures match PropertyBytes(ids, Some(i), size)
            case Some(bytes) => i <= |ids| && |bytes| == 5 && DecodeId(bytes) == ids[i - 1]
            case None => i > |ids|
  {
    hide EncodeId, DecodeId;
    if i <= |ids| {
      IdRoundTrip(ids[i - 1]);
    }
  }

  /** Reading the whole property: if it fits, what reading its elements one by one gives. */
  lemma WholeIsJoined(ids: seq<ObjectId>, size: nat)
    requires |ids| < 0x1_0000_0000 && forall id :: id in ids ==> ValidId(id)
    ensures PropertyBytes(ids, None, size) == if 5 * |ids| <= size then Some(Joined(ids, |ids|)) else None
  {
    hide EncodeId;
    JoinedIsConcat(ids, |ids|);
    assert ids[..|ids|] == ids;
  }

  lemma {:induction false} JoinedIsConcat(ids: seq<ObjectId>, n: nat)
    requires n <= |ids| < 0x1_0000_0000 && forall id :: id in ids ==> ValidId(id)
    ensures Joined(ids, n) == Concat(ids[..n])
  {
    hide EncodeId;
    if n > 0 {
      JoinedIsConcat(ids, n - 1);
      ConcatStep(ids, n - 1);
    }
  }

  lemma ForeignStep(keys: seq<nat>, own: nat, i: nat)
    requires i < |keys|
    ensures Foreign(keys[..i + 1], own) == Foreign(keys[..i], own) + if keys[i] == own then [] else [keys[i]]
  {
    assert keys[..i + 1][..i] == keys[..i];
  }

  lemma {:induction false} ForeignPrefix(keys: seq<nat>, own: nat, n: nat)
    requires n <= |keys|
    ensures Foreign(keys[..n], own) <= Foreign(keys, own)
    decreases |keys| - n
  {
    if n == |keys| {
      assert keys[..n] == keys;
    } else {
      ForeignStep(keys, own, n);
      ForeignPrefix(keys, own, n + 1);
    }
  }

  /** Reading an unsigned integer: the tag tells how many octets follow, most significant first. */
  function DecodeUnsigned(bytes: seq<Byte>): Option<nat> {
    if 2 <= |bytes| <= 5 && bytes[0] == 0x20 + |bytes| - 1 then Some(BigEndian(bytes[1..])) else None
  }

  function BigEndian(bytes: seq<Byte>): nat {
    if bytes == [] then 0 else BigEndian(bytes[..|bytes| - 1]) * 0x100 + bytes[|bytes| - 1]
  }

  lemma UnsignedRoundTrip(n: nat)
    requires n < 0x1_0000_0000
    ensures DecodeUnsigned(EncodeUnsigned(n)) == Some(n)
  {
    hide BigEndian;
    OctetsAddUp(n);
    var bytes := EncodeUnsigned(n);
    if |bytes| == 2 {
      BigEndianOne(bytes[1]);
      assert bytes[1..] == [bytes[1]];
    } else if |bytes| == 3 {
      BigEndianTwo(bytes[1], bytes[2]);
      assert bytes[1..] == [bytes[1], bytes[2]];
    } else if |bytes| == 4 {
      BigEndianThree(bytes[1], bytes[2], bytes[3]);
      assert bytes[1..] == [bytes[1], bytes[2], bytes[3]];
      assert n / 0x100_0000 == 0;
    } else {
      BigEndianFour(bytes[1], bytes[2], bytes[3], bytes[4]);
      assert bytes[1..] == [bytes[1], bytes[2], bytes[3], bytes[4]];
    }
  }

  lemma BigEndianOne(a: Byte)
    ensures BigEndian([a]) == a
  {
    assert [a][..0] == [];
  }

  lemma BigEndianTwo(a: Byte, b: Byte)
    ensures BigEndian([a, b]) == a * 0x100 + b
  {
    BigEndianOne(a);
    assert [a, b][..1] == [a];
  }

  lemma BigEndianThree(a: Byte, b: Byte, c: Byte)
    ensures BigEndian([a, b, c]) == a * 0x1_0000 + b * 0x100 + c
  {
    BigEndianTwo(a, b);
    assert [a, b, c][..2] == [a, b];
  }

  lemma BigEndianFour(a: Byte, b: Byte, c: Byte, d: Byte)
    ensures BigEndian([a, b, c, d]) == Word32(a, b, c, d)
  {
    BigEndianThree(a, b, c);
    assert [a, b, c, d][..3] == [a, b, c];
  }

  /** Index 0 reads as the number of objects. */
  lemma CountReadsBack(ids: seq<ObjectId>, size: nat)
    requires |ids| < 0x1_0000_0000 && forall id :: id in ids ==> ValidId(id)
    ensures var r := PropertyBytes(ids, Some(0), size);
            r.Some? && DecodeUnsigned(r.value) == Some(|ids|)
  {
    hide EncodeUnsigned, DecodeUnsigned;
    UnsignedRoundTrip(|ids|);
  }

  /** An object identifier on the wire: the tag of clause 20.2.14 of ASHRAE 135, then type and instance as one big-endian
      number, the type in the upper ten bits. */
  lemma IdOnWire(id: ObjectId)
    requires ValidId(id)
    ensures EncodeId(id)[0] == 0xC4 && BigEndian(EncodeId(id)[1..]) == id.kind * 4194304 + id.instance
  {
    var bytes := EncodeId(id);
    OctetsAddUp(Key(id));
    BigEndianFour(bytes[1], bytes[2], bytes[3], bytes[4]);
    assert bytes[1..] == [bytes[1], bytes[2], bytes[3], bytes[4]];
  }
}
