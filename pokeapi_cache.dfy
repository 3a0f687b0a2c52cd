/** The module-level response cache of lib/tools/pokeapi.ts: a JavaScript `Map` from
    cache key to `{ value, expiresAt }`, with a five-minute lifetime, a bound of 200
    entries, and recency order kept by deleting and re-inserting a key on every hit. */
module PokeApiCache {
  import opened Wrappers
  import opened Seqs

  const CacheTtlMs: int := 5 * 60 * 1000
  const CacheMaxEntries: nat := 200

  datatype CacheEntry<V> = CacheEntry(value: V, expiresAt: int)

  /** A `Map`'s contents: its keys in insertion order and what each maps to. */
  datatype MapState<V> = MapState(order: seq<string>, entries: map<string, V>)

  predicate Distinct(s: seq<string>)
  {
    forall i, j :: 0 <= i < j < |s| ==> s[i] != s[j]
  }

  /** Each key once in the order, and the order holds exactly the keys. */
  ghost predicate WellFormed<V>(m: MapState<V>)
  {
    && Distinct(m.order)
    && (forall k :: k in m.entries <==> k in m.order)
  }

  function Without(order: seq<string>, key: string): (r: seq<string>)
    ensures key !in r
  {
    Filter(order, k => k != key)
  }

  /** `map.delete(key)` */
  function MapDelete<V>(m: MapState<V>, key: string): MapState<V>
  {
    MapState(Without(m.order, key), m.entries - {key})
  }

  /** `map.set(key, value)`: a key already present keeps its place in the order. */
  function MapSet<V>(m: MapState<V>, key: string, value: V): MapState<V>
  {
    MapState(if key in m.entries then m.order else m.order + [key], m.entries[key := value])
  }

  /** `getCache(key)` with `Date.now()` = `now`: the new contents and the result. */
  function CacheGet<V>(m: MapState<CacheEntry<V>>, key: string, now: int): (MapState<CacheEntry<V>>, Option<V>)
  {
    if key !in m.entries then (m, None)
    else
      var entry := m.entries[key];
      if now > entry.expiresAt then (MapDelete(m, key), None)
      else (MapSet(MapDelete(m, key), key, entry), Some(entry.value))
  }

  /** `setCache(key, value)` with `Date.now()` = `now`. The oldest key is evicted only when
      it is a non-empty string (`if (firstKey)`). */
  function CacheSet<V>(m: MapState<CacheEntry<V>>, key: string, value: V, now: int): MapState<CacheEntry<V>>
  {
    var m1 := MapSet(m, key, CacheEntry(value, now + CacheTtlMs));
    if |m1.entries| > CacheMaxEntries && |m1.order| > 0 && m1.order[0] != "" then MapDelete(m1, m1.order[0])
    else m1
  }

  // ===========================================================================
  // The `Map` object and the two functions that use it

  /** A JavaScript `Map` with string keys. */
  class JsMap<V> {
    var order: seq<string>
    var entries: map<string, V>

    function State(): MapState<V>
      reads this
    {
      MapState(order, entries)
    }

    ghost predicate Valid()
      reads this
    {
      WellFormed(State())
    }

    constructor ()
      ensures Valid() && State() == MapState([], map[])
    {
      order := [];
      entries := map[];
    }

    /** `map.get(key)`; `None` stands for `undefined`. */
    method Get(key: string) returns (r: Option<V>)
      ensures r.Some? <==> key in entries
      ensures r.Some? ==> r.value == entries[key]
    {
      if key in entries {
        r := Some(entries[key]);
      } else {
        r := None;
      }
    }

    method Delete(key: string)
      requires Valid()
      modifies this
      ensures Valid()
      ensures State() == MapDelete(old(State()), key)
    {
      WithoutKeeps(order, key);
      order := Without(order, key);
      entries := entries - {key};
    }

    method Set(key: string, value: V)
      requires Valid()
      modifies this
      ensures Valid()
      ensures State() == MapSet(old(State()), key, value)
    {
      if key !in entries {
        order := order + [key];
      }
      entries := entries[key := value];
    }
  }

  /** `getCache(key)`, reading the clock as `now`. */
  method GetCache<V>(cache: JsMap<CacheEntry<V>>, key: string, now: int) returns (r: Option<V>)
    requires cache.Valid()
    modifies cache
    ensures cache.Valid()
    ensures (cache.State(), r) == CacheGet(old(cache.State()), key, now)
  {
    var entry := cache.Get(key);
    if entry.None? {
      return None;
    }
    if now > entry.value.expiresAt {
      cache.Delete(key);
      return None;
    }
    cache.Delete(key);
    cache.Set(key, entry.value);
    r := Some(entry.value.value);
  }

  /** `setCache(key, value)`, reading the clock as `now`. */
  method SetCache<V>(cache: JsMap<CacheEntry<V>>, key: string, value: V, now: int)
    requires cache.Valid()
    modifies cache
    ensures cache.Valid()
    ensures cache.State() == CacheSet(old(cache.State()), key, value, now)
  {
    cache.Set(key, CacheEntry(value, now + CacheTtlMs));
    if |cache.entries| > CacheMaxEntries {
      if |cache.order| > 0 {
        var firstKey := cache.order[0];
        if firstKey != "" {
          cache.Delete(firstKey);
        }
      }
    }
  }

  // ===========================================================================
  // Properties

  /** Dropping a key from a duplicate-free order keeps every other key, in order. */
  lemma {:induction false} WithoutKeeps(order: seq<string>, key: string)
    ensures Distinct(order) ==> Distinct(Without(order, key))
    ensures forall k :: k in Without(order, key) <==> k in order && k != key
    ensures key !in order ==> Without(order, key) == order
  {
    if order != [] {
      var rest := Without(order[1..], key);
      WithoutKeeps(order[1..], key);
      assert order == [order[0]] + order[1..];
      if order[0] != key {
        assert Without(order, key) == [order[0]] + rest;
        if Distinct(order) {
          assert order[0] !in order[1..];
          assert order[0] !in rest;
          assert Distinct(order[1..]) by {
            forall i, j | 0 <= i < j < |order[1..]| ensures order[1..][i] != order[1..][j] {
              assert order[1..][i] == order[i + 1] && order[1..][j] == order[j + 1];
            }
          }
          forall i, j | 0 <= i < j < |[order[0]] + rest| ensures ([order[0]] + rest)[i] != ([order[0]] + rest)[j] {
            if i == 0 {
              assert ([order[0]] + rest)[j] == rest[j - 1];
            } else {
              assert ([order[0]] + rest)[i] == rest[i - 1] && ([order[0]] + rest)[j] == rest[j - 1];
            }
          }
        }
      } else {
        assert Without(order, key) == rest;
        if Distinct(order) {
          assert Distinct(order[1..]) by {
            forall i, j | 0 <= i < j < |order[1..]| ensures order[1..][i] != order[1..][j] {
              assert order[1..][i] == order[i + 1] && order[1..][j] == order[j + 1];
            }
          }
        }
      }
    }
  }

  /** `Map` operations keep each key once and the order in step with the keys. */
  lemma MapOpsKeepWellFormed<V>(m: MapState<V>, key: string, value: V)
    requires WellFormed(m)
    ensures WellFormed(MapDelete(m, key))
    ensures WellFormed(MapSet(m, key, value))
    ensures |MapDelete(m, key).entries| == if key in m.entries then |m.entries| - 1 else |m.entries|
    ensures |MapSet(m, key, value).entries| == if key in m.entries then |m.entries| else |m.entries| + 1
  {
    WithoutKeeps(m.order, key);
  }

  /** An absent key is a miss and changes nothing. */
  lemma MissLeavesCache<V>(m: MapState<CacheEntry<V>>, key: string, now: int)
    requires key !in m.entries
    ensures CacheGet(m, key, now) == (m, None)
  {
  }

  /** Expiry is strict: an entry is dropped once the clock is past `expiresAt`, and at
      exactly `expiresAt` it is still served. */
  lemma ExpiryIsStrict<V>(m: MapState<CacheEntry<V>>, key: string, now: int)
    requires key in m.entries
    ensures now > m.entries[key].expiresAt ==>
      CacheGet(m, key, now).1 == None && key !in CacheGet(m, key, now).0.entries
    ensures now <= m.entries[key].expiresAt ==> CacheGet(m, key, now).1 == Some(m.entries[key].value)
  {
  }

  /** Deleting a key and setting it again to the same value leaves the mapping as it was. */
  lemma ReinsertSame<V>(entries: map<string, V>, key: string)
    requires key in entries
    ensures (entries - {key})[key := entries[key]] == entries
  {
    var again := (entries - {key})[key := entries[key]];
    assert again.Keys == entries.Keys;
    forall k | k in entries ensures again[k] == entries[k] {
    }
  }

  /** A hit returns the stored value, keeps every entry, and moves the key to the most
      recent end while the other keys keep their relative order. */
  lemma {:induction false} HitMovesToEnd<V>(m: MapState<CacheEntry<V>>, key: string, now: int)
    requires WellFormed(m)
    requires key in m.entries && now <= m.entries[key].expiresAt
    ensures CacheGet(m, key, now).1 == Some(m.entries[key].value)
    ensures CacheGet(m, key, now).0.entries == m.entries
    ensures CacheGet(m, key, now).0.order == Without(m.order, key) + [key]
    ensures WellFormed(CacheGet(m, key, now).0)
  {
    var e := m.entries[key];
    var d := MapDelete(m, key);
    MapOpsKeepWellFormed(m, key, e);
    assert key !in d.entries;
    MapOpsKeepWellFormed(d, key, e);
    var after := MapSet(d, key, e);
    assert CacheGet(m, key, now) == (after, Some(e.value));
    ReinsertSame(m.entries, key);
  }

  /** A non-empty cache has an oldest key. */
  lemma OldestExists<V>(m: MapState<V>)
    requires WellFormed(m) && |m.entries| > 0
    ensures |m.order| > 0 && m.order[0] in m.entries
  {
    assert |m.entries.Keys| > 0;
    var k :| k in m.entries.Keys;
    assert k in m.order;
  }

  /** A stored entry expires `CacheTtlMs` after the write, and the cache never grows past
      its bound as long as keys are non-empty (an empty key at the front is never
      evicted). */
  lemma {:induction false} SetKeepsBound<V>(m: MapState<CacheEntry<V>>, key: string, value: V, now: int)
    requires WellFormed(m) && |m.entries| <= CacheMaxEntries
    requires forall k :: k in m.entries ==> k != ""
    requires key != ""
    ensures WellFormed(CacheSet(m, key, value, now))
    ensures |CacheSet(m, key, value, now).entries| <= CacheMaxEntries
    ensures forall k :: k in CacheSet(m, key, value, now).entries ==> k != ""
    ensures key in CacheSet(m, key, value, now).entries
    ensures CacheSet(m, key, value, now).entries[key] == CacheEntry(value, now + CacheTtlMs)
  {
    var e := CacheEntry(value, now + CacheTtlMs);
    var m1 := MapSet(m, key, e);
    if |m1.entries| > CacheMaxEntries {
      EvictOldest(m, key, e);
      EvictionKeepsNewKey(m, key, e);
      assert CacheSet(m, key, value, now) == MapDelete(m1, m1.order[0]);
    } else {
      MapOpsKeepWellFormed(m, key, e);
      assert CacheSet(m, key, value, now) == m1;
      assert m1.entries == m.entries[key := e];
    }
  }

  /** Evicting the oldest key after a write keeps the written key and only non-empty keys. */
  lemma EvictionKeepsNewKey<V>(m: MapState<V>, key: string, e: V)
    requires forall k :: k in m.entries ==> k != ""
    requires key != ""
    requires |MapSet(m, key, e).order| > 0 && MapSet(m, key, e).order[0] != key
    ensures var r := MapDelete(MapSet(m, key, e), MapSet(m, key, e).order[0]);
      && (forall k :: k in r.entries ==> k != "")
      && key in r.entries && r.entries[key] == e
  {
  }

  /** The write that takes the cache past its bound: the key was new, and the oldest key,
      which is not the new one, goes. */
  lemma EvictOldest<V>(m: MapState<V>, key: string, e: V)
    requires WellFormed(m) && |m.entries| <= CacheMaxEntries
    requires forall k :: k in m.entries ==> k != ""
    requires |MapSet(m, key, e).entries| > CacheMaxEntries
    ensures |MapSet(m, key, e).order| > 0
    ensures MapSet(m, key, e).order[0] != "" && MapSet(m, key, e).order[0] != key
    ensures WellFormed(MapDelete(MapSet(m, key, e), MapSet(m, key, e).order[0]))
    ensures |MapDelete(MapSet(m, key, e), MapSet(m, key, e).order[0]).entries| <= CacheMaxEntries
  {
    var m1 := MapSet(m, key, e);
    MapOpsKeepWellFormed(m, key, e);
    assert key !in m.entries && m1.order == m.order + [key];
    OldestExists(m);
    var first := m.order[0];
    assert first in m.entries && first != key;
    assert m1.order[0] == first;
    MapOpsKeepWellFormed(m1, first, e);
  }

  /** An entry just written is served by a read within its lifetime, even after the write
      evicted the oldest entry. */
  lemma {:induction false} SetThenGet<V>(m: MapState<CacheEntry<V>>, key: string, value: V, t1: int, t2: int)
    requires WellFormed(m) && |m.entries| <= CacheMaxEntries
    requires forall k :: k in m.entries ==> k != ""
    requires key != ""
    requires t2 <= t1 + CacheTtlMs
    ensures CacheGet(CacheSet(m, key, value, t1), key, t2).1 == Some(value)
  {
    SetKeepsBound(m, key, value, t1);
  }
}
