/**
 * `Cache`: an in-memory map from keys to values with an expiry time, a
 * capacity fixed from the machine's memory at construction, lazy expiry on
 * read and first-in-first-out eviction on write. The clock reading and the
 * memory size are inputs here.
 */
module Caching {
  import opened Wrappers
  import opened Dicts
  import opened Js

  /** A stored value and the clock reading (milliseconds) at which it expires. */
  datatype CacheEntry = CacheEntry(value: Value, expiry: int)

  /**
   * `calculateMaxCapacity()`: a fifth of the total memory, in units of
   * 50 KiB, rounded down.
   */
  function MaxCapacity(totalMem: nat): (cap: nat)
    ensures cap * 256000 <= totalMem < (cap + 1) * 256000
  {
    totalMem / 256000
  }

  /** `get(key)`: the stored value while it has not expired, `null` otherwise. */
  function Lookup(entries: Dict<CacheEntry>, key: string, now: int): Value
  {
    match Get(entries, key)
    case Some(e) => if now < e.expiry then e.value else Null
    case None => Null
  }

  /** The entries left after the eviction step of `set`: the oldest goes when the cache is full. */
  function Evicted(entries: Dict<CacheEntry>, capacity: int): Dict<CacheEntry>
  {
    if |entries| >= capacity && |entries| > 0 then entries[1..] else entries
  }

  /** `set(key, value, ttl)`: nothing for a TTL below one second, else evict, then write. */
  function Stored(entries: Dict<CacheEntry>, capacity: int, key: string, value: Value, ttl: int, now: int)
    : Dict<CacheEntry>
  {
    if ttl < 1 then entries
    else Put(Evicted(entries, capacity), key, CacheEntry(value, now + ttl * 1000))
  }

  class Cache {
    var entries: Dict<CacheEntry>
    /** `maxCacheCap`, fixed at construction. */
    const capacity: int

    /** Keys are distinct, as in any `Map`. */
    ghost predicate Valid()
      reads this
    {
      KeysDistinct(entries)
    }

    constructor (totalMem: nat)
      ensures entries == [] && capacity == MaxCapacity(totalMem)
      ensures Valid()
    {
      entries := [];
      capacity := MaxCapacity(totalMem);
    }

    /** `get(key)`, read at clock `now`; an expired entry is left in place. */
    method Get(key: string, now: int) returns (r: Value)
      ensures r == Lookup(entries, key, now)
    {
      var entry := Dicts.Get(entries, key);
      if entry.Some? && now < entry.value.expiry {
        return entry.value.value;
      }
      return Null;
    }

    /** `set(key, value, ttl)` at clock `now`. */
    method Set(key: string, value: Value, ttl: int, now: int)
      requires Valid()
      modifies this
      ensures entries == Stored(old(entries), capacity, key, value, ttl, now)
      ensures Valid()
    {
      if ttl < 1 {
        return;
      }
      if |entries| >= capacity && |entries| > 0 {
        RemoveFirstKey(entries);
        entries := Remove(entries, entries[0].0);
      }
      var entry := CacheEntry(value, now + ttl * 1000);
      PutKeepsDistinct(entries, key, entry);
      entries := Put(entries, key, entry);
    }

    /** `delete(key)`. */
    method Delete(key: string)
      requires Valid()
      modifies this
      ensures entries == Remove(old(entries), key)
      ensures Valid()
    {
      GetRemove(entries, key, key);
      entries := Remove(entries, key);
    }

    /** `has(key)`: whether `get(key)` gives something other than `null`. */
    method Has(key: string, now: int) returns (b: bool)
      ensures b <==> Lookup(entries, key, now) != Null
    {
      var r := Get(key, now);
      b := r != Null;
    }
  }

  /** A value written with a TTL of at least one second reads back until it expires, then reads `null`. */
  lemma SetThenLookup(entries: Dict<CacheEntry>, capacity: int, key: string, value: Value, ttl: int, now: int, later: int)
    requires ttl >= 1 && now <= later
    ensures Lookup(Stored(entries, capacity, key, value, ttl, now), key, later)
         == if later < now + ttl * 1000 then value else Null
  {
    GetPut(Evicted(entries, capacity), key, CacheEntry(value, now + ttl * 1000), key);
  }

  /** A TTL below one second leaves the cache exactly as it was. */
  lemma SmallTtlIgnored(entries: Dict<CacheEntry>, capacity: int, key: string, value: Value, ttl: int, now: int)
    requires ttl < 1
    ensures Stored(entries, capacity, key, value, ttl, now) == entries
  {
  }

  /**
   * Writing `key` leaves every other key as it reads after the eviction
   * step: untouched, unless it was the oldest key of a full cache.
   */
  lemma SetKeepsOthers(entries: Dict<CacheEntry>, capacity: int, key: string, value: Value, ttl: int, now: int, other: string)
    requires ttl >= 1 && other != key
    ensures Get(Stored(entries, capacity, key, value, ttl, now), other) == Get(Evicted(entries, capacity), other)
    ensures |entries| < capacity || entries == [] ==> Get(Stored(entries, capacity, key, value, ttl, now), other) == Get(entries, other)
  {
    GetPut(Evicted(entries, capacity), key, CacheEntry(value, now + ttl * 1000), other);
  }

  /**
   * A full cache drops its oldest key on every write, even when the written
   * key is already present; the oldest key survives only if it is the key
   * being written, and then it moves to the end.
   */
  lemma FullCacheEvictsOldest(entries: Dict<CacheEntry>, capacity: int, key: string, value: Value, ttl: int, now: int)
    requires KeysDistinct(entries) && ttl >= 1
    requires |entries| >= capacity && |entries| > 0
    ensures var r := Stored(entries, capacity, key, value, ttl, now);
      && (entries[0].0 != key ==> entries[0].0 !in Keys(r))
      && (entries[0].0 == key ==> Keys(r) == Keys(entries[1..]) + [key])
  {
    var rest := entries[1..];
    assert entries[0].0 !in Keys(rest) by {
      forall i | 0 <= i < |rest| ensures rest[i].0 != entries[0].0 {
        assert rest[i] == entries[i + 1];
      }
    }
    PutKeys(rest, key, CacheEntry(value, now + ttl * 1000));
  }

  /**
   * Overwriting a key that survives eviction keeps its place in the
   * eviction order; a new key goes last.
   */
  lemma SetKeepsOrder(entries: Dict<CacheEntry>, capacity: int, key: string, value: Value, ttl: int, now: int)
    requires ttl >= 1
    ensures var kept := Evicted(entries, capacity);
      Keys(Stored(entries, capacity, key, value, ttl, now))
        == if key in Keys(kept) then Keys(kept) else Keys(kept) + [key]
  {
    PutKeys(Evicted(entries, capacity), key, CacheEntry(value, now + ttl * 1000));
  }

  /**
   * With a capacity of at least one, a cache within capacity stays within
   * capacity after any write; a capacity of zero behaves as one.
   */
  lemma SetWithinCapacity(entries: Dict<CacheEntry>, capacity: int, key: string, value: Value, ttl: int, now: int)
    requires KeysDistinct(entries)
    requires |entries| <= if capacity < 1 then 1 else capacity
    ensures var r := Stored(entries, capacity, key, value, ttl, now);
      KeysDistinct(r) && |r| <= if capacity < 1 then 1 else capacity
  {
    if ttl >= 1 {
      var kept := Evicted(entries, capacity);
      var e := CacheEntry(value, now + ttl * 1000);
      assert KeysDistinct(kept);
      PutKeys(kept, key, e);
      PutKeepsDistinct(kept, key, e);
    }
  }

  /** After `delete(key)` the key reads `null` and every other key reads as before. */
  lemma DeleteThenLookup(entries: Dict<CacheEntry>, key: string, other: string, now: int)
    requires KeysDistinct(entries)
    ensures Lookup(Remove(entries, key), key, now) == Null
    ensures other != key ==> Lookup(Remove(entries, key), other, now) == Lookup(entries, other, now)
  {
    GetRemove(entries, key, key);
    GetRemove(entries, key, other);
  }

  /** A stored `null` counts as absent for `has`, and an expired entry does too. */
  lemma HasExamples(key: string, now: int)
    ensures Lookup([(key, CacheEntry(Null, now + 1000))], key, now) == Null
    ensures Lookup([(key, CacheEntry(Str("v"), now))], key, now) == Null
    ensures Lookup([(key, CacheEntry(Str("v"), now + 1))], key, now) == Str("v")
  {
  }
}
