/**
 * The client-side cache of the signed-in user's playlists
 * (src/lib/stores/playlistsCache.ts). The store holds either nothing or the
 * playlists with the time they were stored; the current time is a parameter.
 */
module PlaylistsCache {
  import opened Wrappers
  import opened Schema

  datatype CacheData = CacheData(playlists: seq<Playlist>, lastUpdated: int)

  /** One minute, in milliseconds. */
  const DefaultMaxAge := 60 * 1000

  /** `playlists.filter((p) => p.id !== playlistId)`. */
  function WithoutPlaylist(ps: seq<Playlist>, playlistId: string): (r: seq<Playlist>)
    ensures |r| <= |ps|
    ensures forall p :: p in r <==> p in ps && p.id != Some(playlistId)
  {
    if ps == [] then []
    else if ps[0].id == Some(playlistId) then WithoutPlaylist(ps[1..], playlistId)
    else [ps[0]] + WithoutPlaylist(ps[1..], playlistId)
  }

  /** Filtering works piece by piece, so the kept playlists stay in their order. */
  lemma {:induction false} WithoutPlaylistAppend(a: seq<Playlist>, b: seq<Playlist>, playlistId: string)
    ensures WithoutPlaylist(a + b, playlistId) == WithoutPlaylist(a, playlistId) + WithoutPlaylist(b, playlistId)
  {
    if a != [] {
      WithoutPlaylistAppend(a[1..], b, playlistId);
      assert (a + b)[1..] == a[1..] + b;
    } else {
      assert a + b == b;
    }
  }

  /** A list with no playlist of that id is left as it is. */
  lemma {:induction false} WithoutAbsentPlaylist(ps: seq<Playlist>, playlistId: string)
    requires forall p :: p in ps ==> p.id != Some(playlistId)
    ensures WithoutPlaylist(ps, playlistId) == ps
  {
    if ps != [] {
      WithoutAbsentPlaylist(ps[1..], playlistId);
      assert [ps[0]] + ps[1..] == ps;
    }
  }

  /** Removing twice is removing once. */
  lemma WithoutPlaylistIdempotent(ps: seq<Playlist>, playlistId: string)
    ensures WithoutPlaylist(WithoutPlaylist(ps, playlistId), playlistId) == WithoutPlaylist(ps, playlistId)
  {
    WithoutAbsentPlaylist(WithoutPlaylist(ps, playlistId), playlistId);
  }

  /** `playlists.map((p) => (p.id === playlistId ? { ...p, ...updates } : p))`. */
  function UpdatedPlaylists(ps: seq<Playlist>, playlistId: string, updates: PlaylistPatch): (r: seq<Playlist>)
    ensures |r| == |ps|
  {
    seq(|ps|, i requires 0 <= i < |ps| =>
      if ps[i].id == Some(playlistId) then MergePlaylist(ps[i], updates) else ps[i])
  }

  /**
   * Updating keeps length and order: playlists with another id are untouched,
   * and the matching ones take exactly the fields the update carries.
   */
  lemma UpdatedPlaylistsSpec(ps: seq<Playlist>, playlistId: string, updates: PlaylistPatch)
    ensures var r := UpdatedPlaylists(ps, playlistId, updates);
      forall i :: 0 <= i < |ps| ==>
        && (ps[i].id != Some(playlistId) ==> r[i] == ps[i])
        && (ps[i].id == Some(playlistId) ==>
              r[i].name == updates.name.GetOr(ps[i].name) && r[i].songs == updates.songs.GetOr(ps[i].songs)
              && r[i].cover == updates.cover.GetOr(ps[i].cover) && r[i].isPublic == updates.isPublic.GetOr(ps[i].isPublic))
    ensures updates.id.None? ==>
      forall i :: 0 <= i < |ps| ==> UpdatedPlaylists(ps, playlistId, updates)[i].id == ps[i].id
  {
  }

  /** Updating with the same changes twice is updating once. */
  lemma UpdatedPlaylistsIdempotent(ps: seq<Playlist>, playlistId: string, updates: PlaylistPatch)
    requires updates.id.None?
    ensures UpdatedPlaylists(UpdatedPlaylists(ps, playlistId, updates), playlistId, updates)
         == UpdatedPlaylists(ps, playlistId, updates)
  {
    var once := UpdatedPlaylists(ps, playlistId, updates);
    forall i | 0 <= i < |ps|
      ensures UpdatedPlaylists(once, playlistId, updates)[i] == once[i]
    {
      if ps[i].id == Some(playlistId) {
        MergePlaylistIdempotent(ps[i], updates);
      }
    }
  }

  /** `isStale(cache, maxAge)` at time `now`. */
  function IsStale(cache: Option<CacheData>, now: int, maxAge: int): (r: bool)
    ensures cache.None? ==> r
  {
    if cache.None? then true else now - cache.value.lastUpdated > maxAge
  }

  /**
   * Staleness is strict and only grows with time: data stored at `now` is
   * fresh at `now` for any non-negative age limit, exactly `maxAge` later it
   * is still fresh, and once stale it stays stale.
   */
  lemma StalenessOverTime(data: CacheData, now: int, later: int, maxAge: int)
    requires now <= later
    ensures maxAge >= 0 ==> !IsStale(Some(data.(lastUpdated := now)), now, maxAge)
    ensures !IsStale(Some(data.(lastUpdated := now)), now + maxAge, maxAge)
    ensures IsStale(Some(data), now, maxAge) ==> IsStale(Some(data), later, maxAge)
  {
  }

  /** `getPlaylists(cache)`: the playlists, or [] when nothing is cached. */
  function GetPlaylists(cache: Option<CacheData>): (r: seq<Playlist>)
    ensures cache.None? ==> r == []
    ensures cache.Some? ==> r == cache.value.playlists
  {
    if cache.Some? then cache.value.playlists else []
  }

  /** The store. */
  class PlaylistsCacheStore {
    var cache: Option<CacheData>

    constructor ()
      ensures cache == None
    {
      cache := None;
    }

    /** `setCache(playlists)`. */
    method SetCache(playlists: seq<Playlist>, now: int)
      modifies this
      ensures cache == Some(CacheData(playlists, now))
    {
      cache := Some(CacheData(playlists, now));
    }

    /** `updateCache(playlists)`: replaces the playlists whatever was there. */
    method UpdateCache(playlists: seq<Playlist>, now: int)
      modifies this
      ensures cache == Some(CacheData(playlists, now))
    {
      cache := Some(CacheData(playlists, now));
    }

    /** `addPlaylist(playlist)`: puts the playlist first, starting a list if there was none. */
    method AddPlaylist(playlist: Playlist, now: int)
      modifies this
      ensures cache == Some(CacheData([playlist] + GetPlaylists(old(cache)), now))
      ensures |GetPlaylists(cache)| == |GetPlaylists(old(cache))| + 1
    {
      if cache.None? {
        assert [playlist] + [] == [playlist];
        cache := Some(CacheData([playlist], now));
      } else {
        cache := Some(CacheData([playlist] + cache.value.playlists, now));
      }
    }

    /** `removePlaylist(playlistId)`: nothing cached stays nothing cached. */
    method RemovePlaylist(playlistId: string, now: int)
      modifies this
      ensures old(cache).None? ==> cache.None?
      ensures old(cache).Some? ==> cache == Some(CacheData(WithoutPlaylist(old(cache).value.playlists, playlistId), now))
    {
      if cache.None? {
        return;
      }
      cache := Some(CacheData(WithoutPlaylist(cache.value.playlists, playlistId), now));
    }

    /** `updatePlaylist(playlistId, updates)`: nothing cached stays nothing cached. */
    method UpdatePlaylist(playlistId: string, updates: PlaylistPatch, now: int)
      modifies this
      ensures old(cache).None? ==> cache.None?
      ensures old(cache).Some? ==>
        cache == Some(CacheData(UpdatedPlaylists(old(cache).value.playlists, playlistId, updates), now))
    {
      if cache.None? {
        return;
      }
      cache := Some(CacheData(UpdatedPlaylists(cache.value.playlists, playlistId, updates), now));
    }

    /** `clearCache()`. */
    method ClearCache()
      modifies this
      ensures cache.None?
    {
      cache := None;
    }
  }
}
