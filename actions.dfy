/**
 * The context-menu factories of src/lib/ctxmenu/actions.ts: which entries a
 * song, playlist, playlist song or room menu offers, and in what order.
 * An entry is kept as its label and whether it is disabled.
 */
module Actions {
  import opened Wrappers
  import opened Schema
  import opened PlaylistsCache

  /** The fixed labels the menus use, and a playlist's name in the submenu. */
  datatype Label =
    | PlaySong | Pause | Resume | AddToQueue | RemoveFromQueue | AddToPlaylist | CopySongLink | SongInfo
    | SharePlaylist | RenamePlaylist | DeletePlaylist | RemoveFromPlaylist
    | CopyRoomLink | JoinRoom | NoPlaylistsFound
    | Named(name: string)
  {
    /** The text shown. */
    function Text(): string {
      match this
      case PlaySong => "Play"
      case Pause => "Pause"
      case Resume => "Resume"
      case AddToQueue => "Add to Queue"
      case RemoveFromQueue => "Remove from Queue"
      case AddToPlaylist => "Add to Playlist"
      case CopySongLink => "Copy Song Link"
      case SongInfo => "Song Info"
      case SharePlaylist => "Share Playlist"
      case RenamePlaylist => "Rename Playlist"
      case DeletePlaylist => "Delete Playlist"
      case RemoveFromPlaylist => "Remove from Playlist"
      case CopyRoomLink => "Copy Room Link"
      case JoinRoom => "Join Room"
      case NoPlaylistsFound => "No playlists found"
      case Named(name) => name
    }
  }

  datatype Action = Action(title: Label, disabled: bool)

  /** An enabled entry. */
  function Entry(title: Label): Action {
    Action(title, false)
  }

  predicate HasLabel(actions: seq<Action>, l: Label) {
    Action(l, false) in actions || Action(l, true) in actions
  }

  /** A user id that is present and non-empty (JavaScript truthiness). */
  predicate Truthy(id: Option<string>) {
    id.Some? && id.value != ""
  }

  /** What the song menu reads from the player store. */
  datatype PlayerView = PlayerView(nowPlaying: Option<string>, queue: seq<string>, paused: bool)

  /** `song.videoId === playerState.meta?.videoId`. */
  predicate IsCurrentlyPlaying(view: PlayerView, videoId: string) {
    view.nowPlaying == Some(videoId)
  }

  /** `playerState.queue.some((s) => s.videoId === song.videoId)`. */
  predicate IsQueued(view: PlayerView, videoId: string) {
    videoId in view.queue
  }

  /** The host's entries of the song menu: the play entry, then the queue entry if any. */
  function HostSongEntries(videoId: string, view: PlayerView): seq<Action> {
    var playing := IsCurrentlyPlaying(view, videoId);
    var queued := IsQueued(view, videoId);
    [Entry(if !playing then PlaySong else if view.paused then Resume else Pause)]
    + (if |view.queue| > 0 && !playing && !queued then [Entry(AddToQueue)] else [])
    + (if queued && !playing then [Entry(RemoveFromQueue)] else [])
  }

  /** The song menu, part by part. */
  function SongMenu(videoId: string, loginUserId: Option<string>, view: PlayerView, isHost: bool): seq<Action> {
    (if isHost then HostSongEntries(videoId, view) else [])
    + (if Truthy(loginUserId) then [Entry(AddToPlaylist)] else [])
    + [Entry(CopySongLink), Entry(SongInfo)]
  }

  /**
   * `createSongActions(song, loginUserId)`: pushes the host's entries, then
   * "Add to Playlist" for a signed-in user, then "Copy Song Link" and
   * "Song Info".
   */
  method CreateSongActions(videoId: string, loginUserId: Option<string>, view: PlayerView, isHost: bool)
    returns (actions: seq<Action>)
    ensures actions == SongMenu(videoId, loginUserId, view, isHost)
  {
    var playing := IsCurrentlyPlaying(view, videoId);
    var queued := IsQueued(view, videoId);
    actions := [];
    if isHost {
      if playing {
        actions := actions + [Entry(if view.paused then Resume else Pause)];
      } else {
        actions := actions + [Entry(PlaySong)];
      }
      if |view.queue| > 0 && !playing && !queued {
        actions := actions + [Entry(AddToQueue)];
      }
      if queued && !playing {
        actions := actions + [Entry(RemoveFromQueue)];
      }
    }
    assert actions == if isHost then HostSongEntries(videoId, view) else [];
    if Truthy(loginUserId) {
      actions := actions + [Entry(AddToPlaylist)];
    }
    actions := actions + [Entry(CopySongLink)];
    actions := actions + [Entry(SongInfo)];
  }

  /** The song menu is the host's entries, the signed-in entry and the two fixed entries, in that order. */
  lemma SongMenuParts(videoId: string, loginUserId: Option<string>, view: PlayerView, isHost: bool)
    ensures var host := if isHost then HostSongEntries(videoId, view) else [];
      var user: seq<Action> := if Truthy(loginUserId) then [Entry(AddToPlaylist)] else [];
      && SongMenu(videoId, loginUserId, view, isHost) == host + user + [Entry(CopySongLink), Entry(SongInfo)]
      && |host| <= 3 && (forall a :: a in host ==> !a.disabled)
      && (forall a :: a in host ==> a.title in [PlaySong, Pause, Resume, AddToQueue, RemoveFromQueue])
  {
  }

  /**
   * Only the host gets play and queue entries, and the host's menu starts
   * with "Resume" or "Pause" for the song now playing and "Play" for any
   * other.
   */
  lemma SongMenuHostGate(videoId: string, loginUserId: Option<string>, view: PlayerView, isHost: bool)
    ensures var actions := SongMenu(videoId, loginUserId, view, isHost);
      var playing := IsCurrentlyPlaying(view, videoId);
      && (!isHost ==> forall l :: l in [PlaySong, Pause, Resume, AddToQueue, RemoveFromQueue] ==> !HasLabel(actions, l))
      && (isHost ==> actions[0].title == if !playing then PlaySong else if view.paused then Resume else Pause)
  {
    SongMenuParts(videoId, loginUserId, view, isHost);
  }

  /**
   * "Add to Queue" appears exactly when the caller hosts, the queue is
   * non-empty and the song is neither playing nor queued; "Remove from
   * Queue" exactly when the caller hosts and the song is queued and not
   * playing; so never both.
   */
  lemma SongMenuQueueEntries(videoId: string, loginUserId: Option<string>, view: PlayerView, isHost: bool)
    ensures var actions := SongMenu(videoId, loginUserId, view, isHost);
      var playing, queued := IsCurrentlyPlaying(view, videoId), IsQueued(view, videoId);
      && (HasLabel(actions, AddToQueue) <==> isHost && |view.queue| > 0 && !playing && !queued)
      && (HasLabel(actions, RemoveFromQueue) <==> isHost && queued && !playing)
      && !(HasLabel(actions, AddToQueue) && HasLabel(actions, RemoveFromQueue))
  {
    SongMenuParts(videoId, loginUserId, view, isHost);
  }

  /**
   * "Add to Playlist" appears exactly for a signed-in user, the menu always
   * ends with "Copy Song Link" then "Song Info", and no entry is disabled.
   */
  lemma SongMenuCommonEntries(videoId: string, loginUserId: Option<string>, view: PlayerView, isHost: bool)
    ensures var actions := SongMenu(videoId, loginUserId, view, isHost);
      && (HasLabel(actions, AddToPlaylist) <==> Truthy(loginUserId))
      && |actions| >= 2 && actions[|actions| - 2..] == [Entry(CopySongLink), Entry(SongInfo)]
      && (forall a :: a in actions ==> !a.disabled)
  {
    SongMenuParts(videoId, loginUserId, view, isHost);
  }

  /** `createPlaylistActions(playlistData, loginUserId)`: always the same three entries. */
  method CreatePlaylistActions() returns (actions: seq<Action>)
    ensures actions == [Entry(SharePlaylist), Entry(RenamePlaylist), Entry(DeletePlaylist)]
  {
    actions := [];
    actions := actions + [Entry(SharePlaylist)];
    actions := actions + [Entry(RenamePlaylist)];
    actions := actions + [Entry(DeletePlaylist)];
  }

  /**
   * `createPlaylistSongActions(song, playlistData, loginUserId, accessedUserId)`:
   * "Play", then "Add to Queue" when the queue is non-empty, for the host;
   * "Copy Song Link" and "Song Info" for everyone; "Remove from Playlist"
   * last, for the owner of the playlist.
   */
  method CreatePlaylistSongActions(loginUserId: Option<string>, accessedUserId: Option<string>,
                                   queue: seq<string>, isHost: bool)
    returns (actions: seq<Action>)
    ensures forall a :: a in actions ==> !a.disabled
    ensures HasLabel(actions, PlaySong) <==> isHost
    ensures HasLabel(actions, AddToQueue) <==> isHost && |queue| > 0
    ensures HasLabel(actions, RemoveFromPlaylist) <==>
      Truthy(loginUserId) && Truthy(accessedUserId) && loginUserId == accessedUserId
    ensures isHost ==> |actions| > 0 && actions[0] == Entry(PlaySong)
    ensures actions ==
      (if isHost then [Entry(PlaySong)] + (if |queue| > 0 then [Entry(AddToQueue)] else []) else [])
      + [Entry(CopySongLink), Entry(SongInfo)]
      + (if Truthy(loginUserId) && Truthy(accessedUserId) && loginUserId == accessedUserId
         then [Entry(RemoveFromPlaylist)] else [])
  {
    actions := [];
    if isHost {
      actions := actions + [Entry(PlaySong)];
      if |queue| > 0 {
        actions := actions + [Entry(AddToQueue)];
      }
    }
    actions := actions + [Entry(CopySongLink)];
    actions := actions + [Entry(SongInfo)];
    if Truthy(loginUserId) && Truthy(accessedUserId) && loginUserId == accessedUserId {
      actions := actions + [Entry(RemoveFromPlaylist)];
    }
  }

  /** `createRoomActions(room, isHost)`: "Copy Room Link", then "Join Room" for anyone but the host. */
  method CreateRoomActions(isHost: bool, isJoining: bool) returns (actions: seq<Action>)
    ensures |actions| >= 1 && actions[0] == Entry(CopyRoomLink)
    ensures HasLabel(actions, JoinRoom) <==> !isHost
    ensures !isHost ==> actions == [Entry(CopyRoomLink), Action(JoinRoom, isJoining)]
    ensures isHost ==> actions == [Entry(CopyRoomLink)]
  {
    actions := [];
    actions := actions + [Entry(CopyRoomLink)];
    if !isHost {
      actions := actions + [Action(JoinRoom, isJoining)];
    }
  }

  /**
   * The entries `loadPlaylistSubmenu(song)` builds once the playlists are
   * known: a single disabled "No playlists found" entry, or one entry per
   * playlist, named after it, in order.
   */
  function PlaylistSubmenu(playlists: seq<Playlist>): (actions: seq<Action>)
    ensures playlists == [] ==> actions == [Action(NoPlaylistsFound, true)]
    ensures playlists != [] ==>
      && |actions| == |playlists|
      && forall i :: 0 <= i < |playlists| ==> actions[i] == Entry(Named(playlists[i].name))
  {
    if playlists == [] then [Action(NoPlaylistsFound, true)]
    else seq(|playlists|, i requires 0 <= i < |playlists| => Entry(Named(playlists[i].name)))
  }

  /** What `loadPlaylistSubmenu` resolves to, or its "Failed to load playlists" rejection. */
  datatype Submenu = Submenu(actions: seq<Action>) | LoadFailed

  /**
   * `loadPlaylistSubmenu(song)` with the playlists cache at time `now`. A
   * fresh cache is read as it is; otherwise the cache is refreshed first.
   * `refreshed` is the cache after `playlistsCache.refresh()`, or `None` when
   * that call throws, which the function turns into its own rejection.
   */
  function LoadPlaylistSubmenu(cache: Option<CacheData>, now: int, refreshed: Option<Option<CacheData>>): (r: Submenu)
    ensures !IsStale(cache, now, DefaultMaxAge) ==> r == Submenu(PlaylistSubmenu(cache.value.playlists))
    ensures IsStale(cache, now, DefaultMaxAge) ==> (r.LoadFailed? <==> refreshed.None?)
    ensures IsStale(cache, now, DefaultMaxAge) && refreshed.Some? ==>
      r == Submenu(PlaylistSubmenu(GetPlaylists(refreshed.value)))
  {
    if cache.Some? && !IsStale(cache, now, DefaultMaxAge) then Submenu(PlaylistSubmenu(GetPlaylists(cache)))
    else if refreshed.None? then LoadFailed
    else Submenu(PlaylistSubmenu(GetPlaylists(refreshed.value)))
  }

  /**
   * A fresh cache is never refreshed, so the menu does not depend on what a
   * refresh would give; with nothing cached the menu is always what the
   * refresh gives.
   */
  lemma FreshCacheNotRefreshed(cache: Option<CacheData>, now: int, r1: Option<Option<CacheData>>, r2: Option<Option<CacheData>>)
    ensures !IsStale(cache, now, DefaultMaxAge) ==>
      LoadPlaylistSubmenu(cache, now, r1) == LoadPlaylistSubmenu(cache, now, r2)
    ensures LoadPlaylistSubmenu(None, now, r1) == LoadPlaylistSubmenu(Some(CacheData([], now - DefaultMaxAge - 1)), now, r1)
  {
  }
}
