/** The fixed-size table of traffic sources: lookup by IPv4 address with lazy expiry of idle entries and
    replacement of the entry idle for longest. Slots are overwritten in place, as in the C array. */
module SourceTable {
  import opened Cidr
  import opened TokenBucket
  import opened FloodBlocker

  datatype Counters = Counters(accepted: nat, rateDrops: nat, aclDrops: nat, blockedDrops: nat, malformed: nat)

  const NO_COUNTS := Counters(0, 0, 0, 0, 0)

  datatype Source = Source(used: bool, ip: Ip, lastSeen: real,
                           packets: Bucket, whoIs: Bucket, writes: Bucket,
                           flood: Flood, counters: Counters)

  const EMPTY := Source(false, 0, 0.0, Bucket(0.0, 0.0), Bucket(0.0, 0.0), Bucket(0.0, 0.0), CALM, NO_COUNTS)

  /** The sizes of the three buckets a new source starts with. */
  datatype Bursts = Bursts(packets: real, whoIs: real, writes: real)

  function Fresh(ip: Ip, bursts: Bursts, now: real): Source {
    Source(true, ip, now, Bucket(bursts.packets, now), Bucket(bursts.whoIs, now), Bucket(bursts.writes, now),
           CALM, NO_COUNTS)
  }

  predicate Expired(x: Source, ttl: real, now: real) {
    x.used && now - x.lastSeen > ttl
  }

  function Expire(x: Source, ttl: real, now: real): Source {
    if Expired(x, ttl, now) then EMPTY else x
  }

  /** The table with the idle entries among its first `n` slots wiped. */
  function Swept(t: seq<Source>, n: nat, ttl: real, now: real): (r: seq<Source>)
    requires n <= |t|
    ensures |r| == |t|
  {
    seq(|t|, i requires 0 <= i < |t| => if i < n then Expire(t[i], ttl, now) else t[i])
  }

  predicate Holds(x: Source, ip: Ip) {
    x.used && x.ip == ip
  }

  /** The first of the first `n` slots that holds a live entry of `ip`; `n` if there is none. */
  function Find(t: seq<Source>, n: nat, ip: Ip, ttl: real, now: real): (k: nat)
    requires n <= |t|
    ensures k <= n
    ensures k < n ==> Holds(t[k], ip) && !Expired(t[k], ttl, now)
    ensures forall i :: 0 <= i < k ==> !Holds(t[i], ip) || Expired(t[i], ttl, now)
  {
    if n == 0 then 0
    else
      var k := Find(t, n - 1, ip, ttl, now);
      if k < n - 1 then k
      else if Holds(t[n - 1], ip) && !Expired(t[n - 1], ttl, now) then n - 1 else n
  }

  /** The first unused slot among the first `n`; `n` if there is none. */
  function FirstFree(t: seq<Source>, n: nat): (k: nat)
    requires n <= |t|
    ensures k <= n
    ensures k < n ==> !t[k].used
    ensures forall i :: 0 <= i < k ==> t[i].used
  {
    if n == 0 then 0
    else
      var k := FirstFree(t, n - 1);
      if k < n - 1 then k else if !t[n - 1].used then n - 1 else n
  }

  /** The first of the used slots idle for longest among the first `n`; -1 if none is used. */
  function Oldest(t: seq<Source>, n: nat): (k: int)
    requires n <= |t|
    ensures -1 <= k < n
    ensures k >= 0 ==> t[k].used
    ensures forall i :: 0 <= i < n && t[i].used ==> 0 <= k && t[k].lastSeen <= t[i].lastSeen
  {
    if n == 0 then -1
    else
      var k := Oldest(t, n - 1);
      if t[n - 1].used && (k < 0 || t[n - 1].lastSeen < t[k].lastSeen) then n - 1 else k
  }

  /** Of several slots idle for equally long the first one is taken. */
  lemma {:induction false} OldestIsFirst(t: seq<Source>, n: nat)
    requires n <= |t|
    ensures forall i :: 0 <= i < Oldest(t, n) && t[i].used ==> t[Oldest(t, n)].lastSeen < t[i].lastSeen
  {
    if n > 0 {
      OldestIsFirst(t, n - 1);
    }
  }

  function Used(t: seq<Source>, n: nat): nat
    requires n <= |t|
  {
    if n == 0 then 0 else Used(t, n - 1) + if t[n - 1].used then 1 else 0
  }

  datatype Lookup = Lookup(table: seq<Source>, index: nat)

  /** Where a source not in the table goes: a free slot, or else over the entry idle for longest. */
  function Place(t: seq<Source>): (k: nat)
    requires 0 < |t|
    ensures k < |t|
  {
    var k := FirstFree(t, |t|);
    if k < |t| then k else Oldest(t, |t|)
  }

  /** The table after one packet of `ip` at `now`, and the slot of that source in it. */
  function GetSource(t: seq<Source>, ip: Ip, bursts: Bursts, ttl: real, now: real): (r: Lookup)
    requires 0 < |t|
    ensures |r.table| == |t| && r.index < |t|
  {
    var k := Find(t, |t|, ip, ttl, now);
    if k < |t| then
      Lookup(Swept(t, k, ttl, now)[k := t[k].(lastSeen := now)], k)
    else
      var swept := Swept(t, |t|, ttl, now);
      var slot := Place(swept);
      Lookup(swept[slot := Fresh(ip, bursts, now)], slot)
  }

  /** No address has two slots. */
  ghost predicate UniqueIps(t: seq<Source>) {
    forall i, j :: 0 <= i < j < |t| && t[i].used && t[j].used ==> t[i].ip != t[j].ip
  }

  lemma {:induction false} UsedAgrees(t: seq<Source>, u: seq<Source>, n: nat)
    requires n <= |t| && n <= |u|
    requires forall i :: 0 <= i < n ==> t[i].used == u[i].used
    ensures Used(t, n) == Used(u, n)
  {
    if n > 0 {
      UsedAgrees(t, u, n - 1);
    }
  }

  lemma {:induction false} UsedAfterUpdate(t: seq<Source>, k: nat, x: Source, n: nat)
    requires k < n <= |t|
    ensures Used(t[k := x], n) == Used(t, n) - (if t[k].used then 1 else 0) + (if x.used then 1 else 0)
  {
    if k == n - 1 {
      UsedAgrees(t, t[k := x], n - 1);
    } else {
      UsedAfterUpdate(t, k, x, n - 1);
    }
  }

  /** Every slot other than `index` is left alone, or is wiped because its entry was idle for too long. */
  ghost predicate OthersKept(t: seq<Source>, r: Lookup, ttl: real, now: real)
    requires |r.table| == |t|
  {
    forall i :: 0 <= i < |t| && i != r.index ==>
      r.table[i] == t[i] || (Expired(t[i], ttl, now) && r.table[i] == EMPTY)
  }

  /** No slot holds a live entry of `ip`. */
  ghost predicate Unknown(t: seq<Source>, ip: Ip, ttl: real, now: real) {
    forall i :: 0 <= i < |t| && Holds(t[i], ip) ==> Expired(t[i], ttl, now)
  }

  /** Slot `k` may be given to a new source: it is free once idle entries are gone, or the table is full of live
      entries and none of them has been idle for longer than this one. */
  ghost predicate MayReplace(t: seq<Source>, k: nat, ttl: real, now: real)
    requires k < |t|
  {
    t[k].used && !Expired(t[k], ttl, now) ==>
      forall i :: 0 <= i < |t| ==> t[i].used && !Expired(t[i], ttl, now) && t[k].lastSeen <= t[i].lastSeen
  }

  lemma KnownSource(t: seq<Source>, ip: Ip, bursts: Bursts, ttl: real, now: real, k: nat)
    requires 0 < |t| && UniqueIps(t) && k < |t| && Holds(t[k], ip) && !Expired(t[k], ttl, now)
    ensures var r := GetSource(t, ip, bursts, ttl, now);
            r.index == k && r.table[k] == t[k].(lastSeen := now) && OthersKept(t, r, ttl, now)
  {
    assert Find(t, |t|, ip, ttl, now) == k;
  }

  lemma NewSource(t: seq<Source>, ip: Ip, bursts: Bursts, ttl: real, now: real)
    requires 0 < |t| && Unknown(t, ip, ttl, now)
    ensures var r := GetSource(t, ip, bursts, ttl, now);
            r.table[r.index] == Fresh(ip, bursts, now) && OthersKept(t, r, ttl, now)
            && MayReplace(t, r.index, ttl, now)
            && forall i :: 0 <= i < |t| && i != r.index ==> !Expired(r.table[i], ttl, now)
  {
    assert Find(t, |t|, ip, ttl, now) == |t|;
    var swept := Swept(t, |t|, ttl, now);
    var slot := Place(swept);
    assert forall i :: 0 <= i < |t| ==> swept[i] == Expire(t[i], ttl, now);
    if t[slot].used && !Expired(t[slot], ttl, now) {
      assert swept[slot].used;
      forall i | 0 <= i < |t|
        ensures t[i].used && !Expired(t[i], ttl, now) && t[slot].lastSeen <= t[i].lastSeen
      {
        assert swept[i].used && swept[slot].lastSeen <= swept[i].lastSeen;
      }
    }
  }

  lemma UniqueByOthers(t: seq<Source>, u: seq<Source>, k: nat)
    requires UniqueIps(t) && |u| == |t| && k < |t|
    requires forall i :: 0 <= i < |t| && i != k ==> u[i] == t[i] || !u[i].used
    requires forall i :: 0 <= i < |t| && i != k ==> !Holds(u[i], u[k].ip)
    ensures UniqueIps(u)
  {
    forall i, j | 0 <= i < j < |u| && u[i].used && u[j].used
      ensures u[i].ip != u[j].ip
    {
      assert i != k ==> u[i] == t[i] && !Holds(u[i], u[k].ip);
      assert j != k ==> u[j] == t[j] && !Holds(u[j], u[k].ip);
    }
  }

  /** A lookup keeps the addresses distinct and leaves its address in the slot it returns, and only there. */
  lemma LookupKeepsUnique(t: seq<Source>, ip: Ip, bursts: Bursts, ttl: real, now: real)
    requires 0 < |t| && UniqueIps(t)
    ensures var r := GetSource(t, ip, bursts, ttl, now);
            UniqueIps(r.table) && Holds(r.table[r.index], ip) && r.table[r.index].lastSeen == now
  {
    var k := Find(t, |t|, ip, ttl, now);
    var r := GetSource(t, ip, bursts, ttl, now);
    var u, slot := r.table, r.index;
    if k < |t| {
      KnownSource(t, ip, bursts, ttl, now, k);
    } else {
      NewSource(t, ip, bursts, ttl, now);
    }
    assert u[slot].ip == ip && u[slot].used && u[slot].lastSeen == now;
    forall i | 0 <= i < |t| && i != slot
      ensures (u[i] == t[i] || !u[i].used) && !Holds(u[i], ip)
    {
      assert u[i] == t[i] || (Expired(t[i], ttl, now) && u[i] == EMPTY);
    }
    UniqueByOthers(t, u, slot);
  }
}
