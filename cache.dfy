/**
 * The bot's cache stores (cache.CacheStoreV2) and the global session index (cache.CIDStore),
 * as maps without expiry. A lookup either finds the key or reports the distinguished miss
 * ErrCacheLost; Set inserts or overwrites one key.
 */
module Cache {
  import opened Wrappers
  import opened Errors

  /** store.Get on a map: the stored value, or the miss signal. */
  function Get<V>(m: map<string, V>, key: string): (r: Result<V, Err>)
    ensures r.Success? <==> key in m
    ensures r.Success? ==> r.value == m[key]
    ensures r.Failure? ==> r.error == ErrCacheLost
  {
    if key in m then Success(m[key]) else Failure(ErrCacheLost)
  }

  /** A lookup of the key just written finds exactly the written value. */
  lemma GetAfterSet<V>(m: map<string, V>, key: string, v: V)
    ensures Get(m[key := v], key) == Success(v)
  {
  }

  /** Writing one key changes no lookup of another key. */
  lemma GetOtherKey<V>(m: map<string, V>, key: string, v: V, other: string)
    requires other != key
    ensures Get(m[key := v], other) == Get(m, other)
  {
  }

  /** One result store of a feature: content key to cached value. */
  class CacheStore<V> {
    var entries: map<string, V>

    constructor ()
      ensures entries == map[]
    {
      entries := map[];
    }

    function Lookup(key: string): Result<V, Err>
      reads this
    {
      Get(entries, key)
    }

    method Set(key: string, v: V)
      modifies this
      ensures entries == old(entries)[key := v]
    {
      entries := entries[key := v];
    }
  }

  /** cache.CIDStore: session handle to content key, shared by every feature. */
  class SessionIndex {
    var entries: map<string, string>

    constructor ()
      ensures entries == map[]
    {
      entries := map[];
    }

    function Lookup(handle: string): Result<string, Err>
      reads this
    {
      Get(entries, handle)
    }

    method Set(handle: string, key: string)
      modifies this
      ensures entries == old(entries)[handle := key]
    {
      entries := entries[handle := key];
    }
  }
}
