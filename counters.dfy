/**
 * `CounterBase`'s threshold-gated buffering. Every counter is put into the
 * volatile tier (memcache); the keys of the counters whose count reached the
 * class's `_MIN_COUNT_FOR_DB_WRITE` are merged into the `counter_keys` list,
 * which a consolidation job (not part of this model) later flushes to the
 * datastore. `UserCounter` and `ProductCounter` are two `CounterClass`
 * objects with their own thresholds over one shared volatile tier.
 */
module Counters {
  import opened Wrappers
  import opened Entities

  function Elements(s: seq<Key>): set<Key> {
    set k | k in s
  }

  predicate NoDuplicates(s: seq<Key>) {
    forall i, j :: 0 <= i < j < |s| ==> s[i] != s[j]
  }

  /**
   * `model.count >= cls._MIN_COUNT_FOR_DB_WRITE` under Python 2's ordering,
   * where `None` is below every integer: a counter without a count never
   * qualifies.
   */
  predicate Qualifies(model: Entity, threshold: int) {
    Count in model.props && model.props[Count].IntV? && model.props[Count].i >= threshold
  }

  /** `[str(model.key()) for model in models if model.count >= threshold]`, in the models' order. */
  function DbTargets(models: seq<Entity>, threshold: int): (r: seq<Key>)
    ensures |r| <= |models|
    ensures forall i :: 0 <= i < |models| && Qualifies(models[i], threshold) ==> models[i].KeyOf() in r
    ensures forall k :: k in r ==> exists i :: 0 <= i < |models| && Qualifies(models[i], threshold) && models[i].KeyOf() == k
  {
    if |models| == 0 then []
    else
      var rest := DbTargets(models[1..], threshold);
      assert forall k :: k in rest ==> exists i :: 1 <= i < |models| && Qualifies(models[i], threshold) && models[i].KeyOf() == k by {
        forall k | k in rest
          ensures exists i :: 1 <= i < |models| && Qualifies(models[i], threshold) && models[i].KeyOf() == k
        {
          var j :| 0 <= j < |models[1..]| && Qualifies(models[1..][j], threshold) && models[1..][j].KeyOf() == k;
          assert models[j + 1] == models[1..][j];
        }
      }
      if Qualifies(models[0], threshold) then [models[0].KeyOf()] + rest else rest
  }

  /** `pdb.put(models, _storage=MEMCACHE)`: each model stored under its key, in order. */
  function PutAll(cache: map<Key, Entity>, models: seq<Entity>): (r: map<Key, Entity>)
    ensures r.Keys == cache.Keys + set i | 0 <= i < |models| :: models[i].KeyOf()
    decreases |models|
  {
    if |models| == 0 then cache else PutAll(cache[models[0].KeyOf() := models[0]], models[1..])
  }

  /** After a put every model's key is in the cache. */
  lemma {:induction false} PutAllStores(cache: map<Key, Entity>, models: seq<Entity>)
    ensures forall i :: 0 <= i < |models| ==> models[i].KeyOf() in PutAll(cache, models)
    decreases |models|
  {
    if |models| > 0 {
      var next := cache[models[0].KeyOf() := models[0]];
      var rest := models[1..];
      PutAllStores(next, rest);
      forall i | 0 <= i < |models| ensures models[i].KeyOf() in PutAll(cache, models) {
        if i > 0 {
          assert rest[i - 1] == models[i];
        } else if exists j :: 0 <= j < |rest| && rest[j].KeyOf() == models[0].KeyOf() {
          var j :| 0 <= j < |rest| && rest[j].KeyOf() == models[0].KeyOf();
        } else {
          PutAllKeeps(next, rest, models[0].KeyOf());
        }
      }
    }
  }

  /** A key no model is written under keeps its entry, or its absence. */
  lemma {:induction false} PutAllKeeps(cache: map<Key, Entity>, models: seq<Entity>, k: Key)
    requires forall i :: 0 <= i < |models| ==> models[i].KeyOf() != k
    ensures k in PutAll(cache, models) <==> k in cache
    ensures k in cache ==> PutAll(cache, models)[k] == cache[k]
    decreases |models|
  {
    if |models| > 0 {
      var rest := models[1..];
      assert forall i :: 0 <= i < |rest| ==> rest[i].KeyOf() != k by {
        forall i | 0 <= i < |rest| ensures rest[i].KeyOf() != k {
          assert rest[i] == models[i + 1];
        }
      }
      PutAllKeeps(cache[models[0].KeyOf() := models[0]], rest, k);
    }
  }

  /** The last model written under a key is the one the cache keeps. */
  lemma {:induction false} PutAllLastWins(cache: map<Key, Entity>, models: seq<Entity>, i: nat)
    requires i < |models|
    requires forall j :: i < j < |models| ==> models[j].KeyOf() != models[i].KeyOf()
    ensures models[i].KeyOf() in PutAll(cache, models)
    ensures PutAll(cache, models)[models[i].KeyOf()] == models[i]
    decreases |models|
  {
    var next := cache[models[0].KeyOf() := models[0]];
    var rest := models[1..];
    if i > 0 {
      assert rest[i - 1] == models[i];
      assert forall j :: i - 1 < j < |rest| ==> rest[j].KeyOf() != rest[i - 1].KeyOf() by {
        forall j | i - 1 < j < |rest| ensures rest[j].KeyOf() != rest[i - 1].KeyOf() {
          assert rest[j] == models[j + 1];
        }
      }
      PutAllLastWins(next, rest, i - 1);
    } else {
      assert forall j :: 0 <= j < |rest| ==> rest[j].KeyOf() != models[0].KeyOf() by {
        forall j | 0 <= j < |rest| ensures rest[j].KeyOf() != models[0].KeyOf() {
          assert rest[j] == models[j + 1];
        }
      }
      PutAllKeeps(next, rest, models[0].KeyOf());
    }
  }

  /**
   * `list(set(cached_keys + key_array))`: the union of both lists with each
   * key once. Python's set leaves the order unspecified, and so does the
   * contract.
   */
  method Union(cached: seq<Key>, added: seq<Key>) returns (r: seq<Key>)
    ensures NoDuplicates(r)
    ensures Elements(r) == Elements(cached) + Elements(added)
  {
    var all := cached + added;
    r := [];
    var i := 0;
    while i < |all|
      invariant 0 <= i <= |all|
      invariant NoDuplicates(r)
      invariant Elements(r) == Elements(all[..i])
    {
      assert all[..i + 1] == all[..i] + [all[i]];
      assert Elements(all[..i + 1]) == Elements(all[..i]) + {all[i]};
      if all[i] !in r {
        assert Elements(r + [all[i]]) == Elements(r) + {all[i]};
        r := r + [all[i]];
      }
      i := i + 1;
    }
    assert all[..i] == all;
  }

  /** The list `get_cached_counter_keys` reads: the stored one, or a fresh empty one. */
  function CachedOrEmpty(counterKeys: Option<seq<Key>>): seq<Key> {
    if counterKeys.Some? then counterKeys.value else []
  }

  /** The volatile tier as the counters use it: the counter entities by key, and the `counter_keys` entry (absent or a list). */
  class VolatileTier {
    var entities: map<Key, Entity>
    var counterKeys: Option<seq<Key>>

    constructor ()
      ensures entities == map[] && counterKeys == None
    {
      entities := map[];
      counterKeys := None;
    }
  }

  /** A counter class: its `_MIN_COUNT_FOR_DB_WRITE` and the volatile tier its class methods write to. */
  class CounterClass {
    const minCountForDbWrite: int
    const cache: VolatileTier

    constructor (minCountForDbWrite: int, cache: VolatileTier)
      ensures this.minCountForDbWrite == minCountForDbWrite && this.cache == cache
    {
      this.minCountForDbWrite := minCountForDbWrite;
      this.cache := cache;
    }

    /** `get_cached_counter_keys`: the stored list, which is first created empty when it is missing. */
    method GetCachedCounterKeys() returns (keys: seq<Key>)
      modifies cache`counterKeys
      ensures keys == CachedOrEmpty(old(cache.counterKeys))
      ensures cache.counterKeys == Some(keys)
    {
      if cache.counterKeys.None? {
        cache.counterKeys := Some([]);
      }
      keys := cache.counterKeys.value;
    }

    /** `set_cached_counter_keys`. */
    method SetCachedCounterKeys(arr: seq<Key>)
      modifies cache`counterKeys
      ensures cache.counterKeys == Some(arr)
    {
      cache.counterKeys := Some(arr);
    }

    /** `update_cached_counter_keys`: the stored keys become the union of the old ones and the new ones, each once. */
    method UpdateCachedCounterKeys(keyArray: seq<Key>)
      modifies cache`counterKeys
      ensures cache.counterKeys.Some? && NoDuplicates(cache.counterKeys.value)
      ensures Elements(cache.counterKeys.value) == Elements(CachedOrEmpty(old(cache.counterKeys))) + Elements(keyArray)
    {
      var cachedKeys := GetCachedCounterKeys();
      cachedKeys := Union(cachedKeys, keyArray);
      SetCachedCounterKeys(cachedKeys);
    }

    /**
     * `filtered_update`: every model goes to the volatile tier; the keys of
     * those at or above the threshold are registered for the datastore, and
     * `counter_keys` is left alone when none qualify.
     */
    method FilteredUpdate(models: seq<Entity>)
      modifies cache
      ensures cache.entities == PutAll(old(cache.entities), models)
      ensures DbTargets(models, minCountForDbWrite) == [] ==> cache.counterKeys == old(cache.counterKeys)
      ensures DbTargets(models, minCountForDbWrite) != [] ==>
        && cache.counterKeys.Some? && NoDuplicates(cache.counterKeys.value)
        && Elements(cache.counterKeys.value) ==
             Elements(CachedOrEmpty(old(cache.counterKeys))) + Elements(DbTargets(models, minCountForDbWrite))
    {
      var dbTargets := DbTargets(models, minCountForDbWrite);
      cache.entities := PutAll(cache.entities, models);
      if |dbTargets| > 0 {
        UpdateCachedCounterKeys(dbTargets);
      }
    }
  }
}
