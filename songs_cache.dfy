/**
 * The client-side cache of the home page's song categories
 * (src/lib/stores/cache/songsCache.ts). Category contents are opaque to the
 * model (type parameter `V`); the current time is a parameter.
 */
module SongsCache {
  import opened Wrappers

  datatype SongsCacheData<V> = SongsCacheData(
    categories: map<string, V>,
    currentOffset: int,
    hasMore: bool,
    lastUpdated: int)

  /** Five minutes, in milliseconds. */
  const DefaultMaxAge := 5 * 60 * 1000

  /** `{ ...old, ...new }` on the categories: new keys win, old keys stay. */
  function MergeCategories<V>(older: map<string, V>, newer: map<string, V>): (r: map<string, V>)
    ensures r.Keys == older.Keys + newer.Keys
    ensures forall k :: k in newer ==> r[k] == newer[k]
    ensures forall k :: k in older && k !in newer ==> r[k] == older[k]
  {
    older + newer
  }

  /** `isStale(cache, maxAge)` at time `now`. */
  function IsStale<V>(cache: Option<SongsCacheData<V>>, now: int, maxAge: int): (r: bool)
    ensures cache.None? ==> r
  {
    if cache.None? then true else now - cache.value.lastUpdated > maxAge
  }

  /** Data stored at `now` is fresh until `maxAge` has passed, and then stale for good. */
  lemma StalenessOverTime<V>(data: SongsCacheData<V>, now: int, later: int, maxAge: int)
    requires maxAge >= 0
    ensures !IsStale(Some(data.(lastUpdated := now)), now + maxAge, maxAge)
    ensures later > now + maxAge ==> IsStale(Some(data.(lastUpdated := now)), later, maxAge)
  {
  }

  /** The store. */
  class SongsCacheStore<V> {
    var cache: Option<SongsCacheData<V>>

    constructor ()
      ensures cache == None
    {
      cache := None;
    }

    /** `setCache(data)`: replaces everything. */
    method SetCache(data: SongsCacheData<V>)
      modifies this
      ensures cache == Some(data)
    {
      cache := Some(data);
    }

    /**
     * `updateCache(categories, offset, hasMore)`: starts a cache from the
     * arguments, or merges the categories into the existing one and replaces
     * the offset and the more-pages flag.
     */
    method UpdateCache(categories: map<string, V>, offset: int, hasMore: bool, now: int)
      modifies this
      ensures old(cache).None? ==> cache == Some(SongsCacheData(categories, offset, hasMore, now))
      ensures old(cache).Some? ==>
        cache == Some(SongsCacheData(MergeCategories(old(cache).value.categories, categories), offset, hasMore, now))
      ensures cache.Some? && !IsStale(cache, now, 0)
    {
      if cache.None? {
        cache := Some(SongsCacheData(categories, offset, hasMore, now));
      } else {
        cache := Some(cache.value.(categories := MergeCategories(cache.value.categories, categories),
                                   currentOffset := offset, hasMore := hasMore, lastUpdated := now));
      }
    }

    /** `clearCache()`. */
    method ClearCache()
      modifies this
      ensures cache.None?
    {
      cache := None;
    }
  }
}
