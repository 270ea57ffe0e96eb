/** Many processes share the second cache level. Each put is one transaction, followed later by a prune of its own;
    between the two anything can happen. The number of entries of a partition still stays within its limit, up to
    the number of processes that have put but not yet pruned. */
module StoreConcurrency {
  import opened OrderedStore

  type Process = nat

  /** One committed transaction on the shared store; `partition` is the prefix of the partition it works on. */
  datatype Txn =
    | PutTxn(who: Process, partition: string, entry: Entry)
    | PruneTxn(who: Process, partition: string, space: string, now: nat, maxEntries: nat, maxBytes: nat)
    | ClearTxn(prefix: string)

  /** The store, and which processes have put into the observed partition and not pruned it since. */
  datatype World = World(store: seq<Entry>, owing: set<Process>)

  /** Transactions as the cache makes them, seen from the observed partition: entries are well formed and expire, a
      process prunes after each put before it puts again, and all use the same limit. */
  predicate Proper(observed: string, maxEntries: nat, w: World, t: Txn) {
    match t
    case PutTxn(who, partition, e) =>
      && HasPrefix(partition, e.key) && Mortal(e)
      && (partition == observed ==> who !in w.owing)
      && (HasPrefix(observed, e.key) <==> partition == observed)
    case PruneTxn(who, partition, space, now, limit, _) => partition == observed ==> limit == maxEntries
    case ClearTxn(_) => true
  }

  function Commit(observed: string, w: World, t: Txn): World {
    match t
    case PutTxn(who, partition, e) =>
      World(Insert(w.store, e.key, e.value), if partition == observed then w.owing + {who} else w.owing)
    case PruneTxn(who, partition, space, now, limit, bytes) =>
      World(Pruned(w.store, partition, space, now, limit, bytes), if partition == observed then w.owing - {who} else w.owing)
    case ClearTxn(prefix) => World(Without(w.store, Everything(prefix)), w.owing)
  }

  ghost predicate AllMortal(s: seq<Entry>, prefix: string) {
    forall e :: e in s && HasPrefix(prefix, e.key) ==> Mortal(e)
  }

  ghost predicate Bounded(observed: string, maxEntries: nat, w: World) {
    Sorted(w.store) && AllMortal(w.store, observed) && CountPrefix(w.store, observed) <= maxEntries + |w.owing|
  }

  lemma {:induction false} CountSplit(s: seq<Entry>, t: seq<Entry>, prefix: string)
    ensures CountPrefix(s + t, prefix) == CountPrefix(s, prefix) + CountPrefix(t, prefix)
  {
    if t == [] {
      assert s + t == s;
    } else {
      assert (s + t)[..|s + t| - 1] == s + t[..|t| - 1];
      CountSplit(s, t[..|t| - 1], prefix);
    }
  }

  lemma {:induction false} CountWithout(s: seq<Entry>, rule: Rule, prefix: string)
    ensures CountPrefix(Without(s, rule), prefix) <= CountPrefix(s, prefix)
    ensures (exists e :: e in s && Doomed(rule, e) && HasPrefix(prefix, e.key)) ==>
              CountPrefix(Without(s, rule), prefix) < CountPrefix(s, prefix)
  {
    if s != [] {
      var front, last := s[..|s| - 1], s[|s| - 1];
      CountWithout(front, rule, prefix);
      assert s == front + [last];
      if Doomed(rule, last) {
        assert Without(s, rule) == Without(front, rule);
      } else {
        Append(Without(front, rule), last, prefix);
      }
    }
  }

  lemma {:induction false} CountIsZero(s: seq<Entry>, prefix: string)
    ensures CountPrefix(s, prefix) > 0 ==> exists e :: e in s && HasPrefix(prefix, e.key)
  {
    if s != [] {
      CountIsZero(s[..|s| - 1], prefix);
      assert s == s[..|s| - 1] + [s[|s| - 1]];
    }
  }

  lemma InsertAddsOne(s: seq<Entry>, e: Entry, prefix: string)
    ensures CountPrefix(Insert(s, e.key, e.value), prefix) <= CountPrefix(s, prefix) + if HasPrefix(prefix, e.key) then 1 else 0
  {
    hide Without, Seek;
    var rest := Without(s, Exactly(e.key));
    CountWithout(s, Exactly(e.key), prefix);
    var k := Seek(rest, e.key);
    assert rest == rest[..k] + rest[k..];
    CountSplit(rest[..k], rest[k..], prefix);
    Append(rest[..k], e, prefix);
    CountSplit(rest[..k] + [e], rest[k..], prefix);
    assert Entry(e.key, e.value) == e;
  }

  /** Relieving a partition that is over its limit removes one of its entries; relieving any other removes none too
      many. */
  lemma RelieveCounts(s: seq<Entry>, prefix: string, exceeded: bool, observed: string)
    requires Sorted(s)
    ensures var t := Relieve(s, prefix, exceeded);
            && Sorted(t) && (forall e :: e in t ==> e in s)
            && CountPrefix(t, observed) <= CountPrefix(s, observed)
            && (prefix == observed && exceeded && AllMortal(s, observed) && CountPrefix(s, observed) > 0 ==>
                  CountPrefix(t, observed) < CountPrefix(s, observed))
  {
    hide Without, Soonest, CountPrefix, Sorted, Mortal, HasPrefix;
    SoonestIsLeast(s, prefix);
    CountIsZero(s, observed);
    var victim := Soonest(s, prefix);
    if victim.Some? {
      var rule := Exactly(victim.value.key);
      WithoutKeeps(s, rule);
      StaysSorted(s, rule);
      CountWithout(s, rule, observed);
      assert Doomed(rule, victim.value);
    }
  }

  lemma PruneCounts(s: seq<Entry>, partition: string, space: string, now: nat, limit: nat, bytes: nat, observed: string)
    requires Sorted(s) && AllMortal(s, observed)
    ensures var t := Pruned(s, partition, space, now, limit, bytes);
            && Sorted(t) && AllMortal(t, observed)
            && CountPrefix(t, observed) <= CountPrefix(s, observed)
            && (partition == observed && CountPrefix(s, observed) > limit ==> CountPrefix(t, observed) < CountPrefix(s, observed))
  {
    hide Without, Soonest, CountPrefix, Sorted, Mortal, HasPrefix, SizePrefix, Relieve;
    var rule := Dead(partition, now);
    var live := Without(s, rule);
    WithoutKeeps(s, rule);
    StaysSorted(s, rule);
    CountWithout(s, rule, observed);
    RelieveCounts(live, partition, CountPrefix(live, partition) > limit, observed);
    var t := PrunePartition(s, partition, now, limit);
    RelieveCounts(t, space, SizePrefix(t, space) > bytes, observed);
  }

  lemma CommitKeepsBound(observed: string, maxEntries: nat, w: World, t: Txn)
    requires Bounded(observed, maxEntries, w) && Proper(observed, maxEntries, w, t)
    ensures Bounded(observed, maxEntries, Commit(observed, w, t))
  {
    hide Without, CountPrefix, Sorted, Mortal, HasPrefix, Insert, Pruned;
    match t
    case PutTxn(who, partition, e) =>
      InsertReplaces(w.store, e.key, e.value);
      InsertStaysSorted(w.store, e.key, e.value);
      InsertAddsOne(w.store, e, observed);
      assert Entry(e.key, e.value) == e;
    case PruneTxn(who, partition, space, now, limit, bytes) =>
      PruneCounts(w.store, partition, space, now, limit, bytes, observed);
    case ClearTxn(prefix) =>
      WithoutKeeps(w.store, Everything(prefix));
      StaysSorted(w.store, Everything(prefix));
      CountWithout(w.store, Everything(prefix), observed);
  }

  /** The world after the transactions of all processes, in whatever order they committed. */
  ghost predicate Runs(observed: string, maxEntries: nat, w: World, ts: seq<Txn>, end: World)
    decreases ts
  {
    if ts == [] then w == end
    else Proper(observed, maxEntries, w, ts[0]) && Runs(observed, maxEntries, Commit(observed, w, ts[0]), ts[1..], end)
  }

  /** Main theorem: from an empty partition on, under every interleaving of any number of processes, the partition
      never holds more than its limit plus the number of processes between their put and their prune, and so at
      most its limit when none is. */
  lemma {:induction false} EntriesStayBounded(observed: string, maxEntries: nat, w: World, ts: seq<Txn>, end: World)
    requires Sorted(w.store) && AllMortal(w.store, observed) && CountPrefix(w.store, observed) <= maxEntries + |w.owing|
    requires Runs(observed, maxEntries, w, ts, end)
    ensures CountPrefix(end.store, observed) <= maxEntries + |end.owing|
    decreases ts
  {
    hide Commit, Proper, CountPrefix, Sorted, AllMortal;
    if ts != [] {
      CommitKeepsBound(observed, maxEntries, w, ts[0]);
      EntriesStayBounded(observed, maxEntries, Commit(observed, w, ts[0]), ts[1..], end);
    }
  }
}
