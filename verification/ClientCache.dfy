/** The client's cache object: the shared first level and the ordered second level behind one interface. */
module ClientCache {
  import opened Fnv
  import opened Wrappers
  import opened SharedSlots
  import opened OrderedStore
  import opened CacheKeys
  import opened TwoLevelCache
  import SharedCache

  class ClientCache {
    const config: Config
    const shared: SharedCache.SharedCache
    const store: Store
    var hits: nat
    var misses: nat
    var stores: nat
    var invalidations: nat

    ghost predicate Valid()
      reads this, shared, shared.slots, shared.generation, store
    {
      ValidConfig(config) && shared.Valid() && Sorted(store.entries)
    }

    ghost function View(): Cache
      reads shared, shared.slots, store
    {
      Cache(shared.View(), Tally(shared.evictions, shared.failures), store.entries)
    }

    constructor (config: Config, shared: SharedCache.SharedCache, store: Store)
      requires ValidConfig(config) && shared.Valid() && Sorted(store.entries)
      ensures Valid() && this.config == config && this.shared == shared && this.store == store
      ensures hits == misses == stores == invalidations == 0
    {
      this.config, this.shared, this.store := config, shared, store;
      hits, misses, stores, invalidations := 0, 0, 0, 0;
    }

    method Get(p: Partition, key: string, room: nat, now: nat) returns (value: Option<seq<Byte>>)
      requires Valid()
      modifies this`hits, this`misses, shared, shared.slots
      ensures Valid()
      ensures TwoLevelCache.Lookup(View(), value) == CacheGet(config, old(View()), p, key, room, now)
      ensures config.enabled[p] ==>
                hits == old(hits) + (if value.Some? then 1 else 0) && misses == old(misses) + if value.None? then 1 else 0
    {
      hide SharedSlots.Get, SharedSlots.Put, Fetch, FullKey;
      if !config.enabled[p] {
        return None;
      }
      var full := FullKey(config.space, p, key);
      value := shared.Get(p, full, room, now);
      if value.Some? {
        hits := hits + 1;
        return;
      }
      if config.hasL2 {
        value := Fetch(store.entries, full, room, now);
      }
      if value.Some? {
        shared.Put(p, full, value.value, now + config.ttl[p], config.maxEntries[p], config.l1Bytes);
        hits := hits + 1;
      } else {
        misses := misses + 1;
      }
    }

    method Put(p: Partition, key: string, value: seq<Byte>, ttl: nat, now: nat)
      requires Valid()
      modifies this`stores, shared, shared.slots, store
      ensures Valid()
      ensures View() == CachePut(config, old(View()), p, key, value, ttl, now)
    {
      hide SharedSlots.Put, FullKey, Insert, Pruned, Sorted, Hash;
      if !config.enabled[p] || ttl == 0 {
        return;
      }
      var full := FullKey(config.space, p, key);
      shared.Put(p, full, value, now + ttl, config.maxEntries[p], config.l1Bytes);
      if config.hasL2 {
        if |value| <= VALUE_MAX {
          var checksum := HashBytes(value);
          InsertStaysSorted(store.entries, full, Record(value, now + ttl));
          store.entries := Insert(store.entries, full, Value(MAGIC, |value|, now + ttl, checksum, value));
        }
        store.Prune(PartitionPrefix(config.space, p), SpacePrefix(config.space), now, config.maxEntries[p], config.l2Bytes);
      }
      stores := stores + 1;
    }

    method Clear(p: int)
      requires Valid() && p < PARTITIONS
      modifies this`invalidations, shared.slots, shared.generation, store
      ensures Valid()
      ensures View() == CacheClear(config, old(View()), p) && invalidations == old(invalidations) + 1
    {
      hide FullKey, Without, Sorted, SpacePrefix, PartitionPrefix;
      shared.ClearPartition(p);
      invalidations := invalidations + 1;
      if config.hasL2 {
        var prefix := if p < 0 then SpacePrefix(config.space) else PartitionPrefix(config.space, p);
        StaysSorted(store.entries, Everything(prefix));
        store.ClearPrefix(prefix);
      }
    }
  }
}
