/**
 * The player store and queue engine of src/lib/player/index.ts.
 *
 * The store is one record of observable state (queue, now playing, shuffle,
 * loop, panels). The embedded YouTube player, the room API and the lyrics
 * fetch are calls into code outside this model: each call is appended to the
 * `effects` log, so that contracts can say which calls an operation makes and
 * in what order. Whether the caller hosts the room (`isRoomHost(userId)`) is
 * passed in as `isHost`, and `Math.random` becomes a nondeterministic choice.
 */
module Player {
  import opened Wrappers
  import opened Thumbnail
  import opened Songs

  // ---------------------------------------------------------------------
  // Enhanced songs
  // ---------------------------------------------------------------------

  /**
   * The `thumbnail` record of an enhanced song. Its five URLs are the five
   * presets of the thumbnail store applied to one cleaned source URL, so the
   * record keeps that URL and derives the five from it.
   */
  datatype EnhancedThumbnails = EnhancedThumbnails(source: string) {
    /** SMALL, 60x60: player and queue items. */
    function Small(): ProxyUrl { GetThumbnailUrl(source, Square(60)) }
    /** MEDIUM, 120x120: search results. */
    function Medium(): ProxyUrl { GetThumbnailUrl(source, Square(120)) }
    /** LARGE, 240x240: song pages. */
    function Large(): ProxyUrl { GetThumbnailUrl(source, Square(240)) }
    /** XLARGE, 480x480: mobile player. */
    function XLarge(): ProxyUrl { GetThumbnailUrl(source, Square(480)) }
    /** FULL: original size. */
    function Full(): ProxyUrl { GetThumbnailUrl(source, NoOptions) }
  }

  /** A detailed song together with its proxied thumbnails. */
  datatype EnhancedSong = EnhancedSong(song: SongDetailed, thumbnail: EnhancedThumbnails) {
    function Id(): string { song.videoId }
  }

  /** `song.thumbnails?.[0]?.url || ""`. */
  function FirstThumbnailUrl(song: SongDetailed): string {
    if |song.thumbnails| == 0 then "" else song.thumbnails[0].url
  }

  function Square(side: int): ThumbnailOptions {
    ThumbnailOptions(Some(side), Some(side), None)
  }

  /**
   * `enhanceSong`: strips every size suffix of the wide pattern from the first
   * thumbnail and builds the proxied URLs from what is left. `album` and
   * `duration` pass through: an album object is always truthy, and `??` keeps
   * a duration of 0.
   */
  function EnhanceSong(song: SongDetailed): (e: EnhancedSong)
    ensures e.song == song && e.Id() == song.videoId
  {
    EnhancedSong(song, EnhancedThumbnails(RemoveAll(Wide, FirstThumbnailUrl(song))))
  }

  /**
   * The five URLs of a thumbnail record are the five presets of the
   * thumbnail store applied to its source URL.
   */
  lemma ThumbnailsArePresets(t: EnhancedThumbnails)
    ensures t.Small() == GetThumbnailUrlWithSize(t.source, Small)
    ensures t.Medium() == GetThumbnailUrlWithSize(t.source, Medium)
    ensures t.Large() == GetThumbnailUrlWithSize(t.source, Large)
    ensures t.XLarge() == GetThumbnailUrlWithSize(t.source, XLarge)
    ensures t.Full() == GetThumbnailUrlWithSize(t.source, Full)
  {
  }

  /**
   * `enhanceSong` feeds the first thumbnail, cleaned of wide size suffixes, to
   * the presets; a song without a thumbnail gets "" for all five URLs.
   */
  lemma EnhanceSongSource(song: SongDetailed)
    ensures EnhanceSong(song).thumbnail.source == RemoveAll(Wide, FirstThumbnailUrl(song))
    ensures song.thumbnails == [] ==>
      var t := EnhanceSong(song).thumbnail;
      t.Small() == t.Medium() == t.Large() == t.XLarge() == t.Full() == Empty
  {
  }

  /** Enhancing a song again (as `playPlaylist` does) changes nothing. */
  lemma EnhanceSongIdempotent(song: SongDetailed)
    ensures EnhanceSong(EnhanceSong(song).song) == EnhanceSong(song)
  {
  }

  // ---------------------------------------------------------------------
  // Queue functions
  // ---------------------------------------------------------------------

  /** `queue.filter(item => item.videoId !== id)`. */
  function WithoutId(q: seq<EnhancedSong>, id: string): (r: seq<EnhancedSong>)
    ensures |r| <= |q|
    ensures forall i :: 0 <= i < |r| ==> r[i].Id() != id && r[i] in q
  {
    if q == [] then []
    else if q[0].Id() == id then WithoutId(q[1..], id)
    else [q[0]] + WithoutId(q[1..], id)
  }

  /** The number of entries with the given id. */
  function CountId(q: seq<EnhancedSong>, id: string): nat {
    if q == [] then 0 else (if q[0].Id() == id then 1 else 0) + CountId(q[1..], id)
  }

  /** No two entries share an id. */
  predicate NoDupIds(q: seq<EnhancedSong>) {
    forall i :: 0 <= i < |q| ==> CountId(q, q[i].Id()) == 1
  }

  /** `queue.find(item => item.videoId === id) || null`. */
  function FindById(q: seq<EnhancedSong>, id: string): (r: Option<EnhancedSong>)
    ensures r.Some? ==> r.value in q && r.value.Id() == id
    ensures r.None? <==> forall i :: 0 <= i < |q| ==> q[i].Id() != id
  {
    if q == [] then None else if q[0].Id() == id then Some(q[0]) else FindById(q[1..], id)
  }

  /** `queue.findIndex(item => item.videoId === id)`: -1 when absent. */
  function IndexOfId(q: seq<EnhancedSong>, id: string): (r: int)
    ensures -1 <= r < |q|
    ensures r >= 0 ==> q[r].Id() == id && forall j :: 0 <= j < r ==> q[j].Id() != id
    ensures r == -1 <==> forall j :: 0 <= j < |q| ==> q[j].Id() != id
  {
    if q == [] then -1
    else if q[0].Id() == id then 0
    else
      var k := IndexOfId(q[1..], id);
      if k == -1 then -1 else k + 1
  }

  /** `queue[currentIndex + 1] || queue[0]`: the entry after the current one, wrapping to the first. */
  function NextIndex(current: int, n: nat): (r: nat)
    requires n > 0 && -1 <= current < n
    ensures r < n
  {
    if current + 1 < n then current + 1 else 0
  }

  /** `queue[currentIndex - 1] || queue[queue.length - 1]`: the entry before, wrapping to the last. */
  function PrevIndex(current: int, n: nat): (r: nat)
    requires n > 0 && -1 <= current < n
    ensures r < n
  {
    if current >= 1 then current - 1 else n - 1
  }

  /** For a song in the queue, going forward then back (or back then forward) returns to it. */
  lemma NextPrevInverse(i: nat, n: nat)
    requires i < n
    ensures PrevIndex(NextIndex(i, n), n) == i
    ensures NextIndex(PrevIndex(i, n), n) == i
  {
  }

  /** A song absent from the queue moves to the first entry on skip and to the last on previous. */
  lemma AbsentSongWraps(n: nat)
    requires n > 0
    ensures NextIndex(-1, n) == 0 && PrevIndex(-1, n) == n - 1
  {
  }

  /** `meta?.videoId` when it is truthy (present and not ""). */
  function CurrentId(meta: Option<EnhancedSong>): (r: Option<string>)
    ensures r.Some? <==> meta.Some? && meta.value.Id() != ""
  {
    if meta.Some? && meta.value.Id() != "" then Some(meta.value.Id()) else None
  }

  /** The queue after `addToQueue(song)`: earlier copies removed, the song at the tail. */
  function Enqueued(q: seq<EnhancedSong>, e: EnhancedSong): seq<EnhancedSong> {
    WithoutId(q, e.Id()) + [e]
  }

  lemma {:induction false} CountIdAppend(a: seq<EnhancedSong>, b: seq<EnhancedSong>, id: string)
    ensures CountId(a + b, id) == CountId(a, id) + CountId(b, id)
  {
    if a != [] {
      CountIdAppend(a[1..], b, id);
      assert (a + b)[1..] == a[1..] + b;
    } else {
      assert a + b == b;
    }
  }

  lemma {:induction false} WithoutIdAppend(a: seq<EnhancedSong>, b: seq<EnhancedSong>, id: string)
    ensures WithoutId(a + b, id) == WithoutId(a, id) + WithoutId(b, id)
  {
    if a != [] {
      WithoutIdAppend(a[1..], b, id);
      assert (a + b)[1..] == a[1..] + b;
    } else {
      assert a + b == b;
    }
  }

  /** Filtering one id removes all its entries and keeps the count of every other id. */
  lemma {:induction false} WithoutIdCounts(q: seq<EnhancedSong>, id: string, other: string)
    ensures CountId(WithoutId(q, id), id) == 0
    ensures other != id ==> CountId(WithoutId(q, id), other) == CountId(q, other)
  {
    if q != [] {
      WithoutIdCounts(q[1..], id, other);
      if q[0].Id() != id {
        assert ([q[0]] + WithoutId(q[1..], id))[1..] == WithoutId(q[1..], id);
      }
    }
  }

  /** Filtering twice by the same id is filtering once. */
  lemma {:induction false} WithoutIdIdempotent(q: seq<EnhancedSong>, id: string)
    ensures WithoutId(WithoutId(q, id), id) == WithoutId(q, id)
  {
    if q != [] {
      WithoutIdIdempotent(q[1..], id);
      if q[0].Id() != id {
        assert ([q[0]] + WithoutId(q[1..], id))[1..] == WithoutId(q[1..], id);
      }
    }
  }

  /**
   * `addToQueue`: afterwards the song is in the queue exactly once, at the
   * tail, and the other entries are those of the old queue in the same order.
   */
  lemma EnqueuedOnceAtTail(q: seq<EnhancedSong>, e: EnhancedSong)
    ensures var r := Enqueued(q, e);
      && r[|r| - 1] == e
      && CountId(r, e.Id()) == 1
      && WithoutId(r, e.Id()) == WithoutId(q, e.Id())
      && (forall other :: other != e.Id() ==> CountId(r, other) == CountId(q, other))
  {
    var r := Enqueued(q, e);
    WithoutIdAppend(WithoutId(q, e.Id()), [e], e.Id());
    WithoutIdIdempotent(q, e.Id());
    assert WithoutId([e], e.Id()) == [];
    assert WithoutId(q, e.Id()) + [] == WithoutId(q, e.Id());
    CountIdAppend(WithoutId(q, e.Id()), [e], e.Id());
    WithoutIdCounts(q, e.Id(), e.Id());
    assert CountId([e], e.Id()) == 1;
    forall other | other != e.Id() ensures CountId(r, other) == CountId(q, other) {
      CountIdAppend(WithoutId(q, e.Id()), [e], other);
      WithoutIdCounts(q, e.Id(), other);
      assert CountId([e], other) == 0;
    }
  }

  /** Filtering keeps a queue free of duplicate ids. */
  lemma WithoutIdNoDup(q: seq<EnhancedSong>, id: string)
    requires NoDupIds(q)
    ensures NoDupIds(WithoutId(q, id))
  {
    var r := WithoutId(q, id);
    forall i | 0 <= i < |r| ensures CountId(r, r[i].Id()) == 1 {
      var j :| 0 <= j < |q| && q[j] == r[i];
      WithoutIdCounts(q, id, r[i].Id());
    }
  }

  /** Enqueueing keeps a queue free of duplicate ids. */
  lemma EnqueuedNoDup(q: seq<EnhancedSong>, e: EnhancedSong)
    requires NoDupIds(q)
    ensures NoDupIds(Enqueued(q, e))
  {
    var r := Enqueued(q, e);
    EnqueuedOnceAtTail(q, e);
    forall i | 0 <= i < |r| ensures CountId(r, r[i].Id()) == 1 {
      if r[i].Id() != e.Id() {
        var w := WithoutId(q, e.Id());
        assert r[i] == w[i];
        var j :| 0 <= j < |q| && q[j] == w[i];
      }
    }
  }

  lemma {:induction false} CountIdPositive(q: seq<EnhancedSong>, k: nat)
    requires k < |q|
    ensures CountId(q, q[k].Id()) >= 1
  {
    if k > 0 {
      CountIdPositive(q[1..], k - 1);
    }
  }

  /** Dropping the head keeps a queue free of duplicates, and no later entry repeats the head's id. */
  lemma NoDupTail(q: seq<EnhancedSong>)
    requires NoDupIds(q) && q != []
    ensures NoDupIds(q[1..])
    ensures forall i :: 1 <= i < |q| ==> q[i].Id() != q[0].Id()
  {
    var t := q[1..];
    forall i | 0 <= i < |t| ensures CountId(t, t[i].Id()) == 1 && t[i].Id() != q[0].Id() {
      CountIdPositive(t, i);
      assert q[i + 1] == t[i];
    }
  }

  /** In a queue without duplicate ids, looking an entry up by its id finds that entry. */
  lemma {:induction false} FindByIdNoDup(q: seq<EnhancedSong>, k: nat)
    requires NoDupIds(q) && k < |q|
    ensures FindById(q, q[k].Id()) == Some(q[k])
  {
    if k > 0 {
      NoDupTail(q);
      FindByIdNoDup(q[1..], k - 1);
    }
  }

  /** In a queue without duplicate ids, an entry's id is found at that entry's position. */
  lemma {:induction false} IndexOfIdNoDup(q: seq<EnhancedSong>, k: nat)
    requires NoDupIds(q) && k < |q|
    ensures IndexOfId(q, q[k].Id()) == k
  {
    if k > 0 {
      NoDupTail(q);
      IndexOfIdNoDup(q[1..], k - 1);
    }
  }

  /** `[s, ...after, ...before]`: the playlist rotated to start at position `k`. */
  function Rotation<T>(s: seq<T>, k: nat): (r: seq<T>)
    requires k <= |s|
    ensures |r| == |s|
  {
    s[k..] + s[..k]
  }

  /** Entry `j` of a rotation is entry `(k + j) mod |s|` of the original, so no entry is lost or added. */
  lemma RotationIndex<T>(s: seq<T>, k: nat, j: nat)
    requires k < |s| && j < |s|
    ensures Rotation(s, k)[j] == s[(k + j) % |s|]
  {
    if k + j < |s| {
      assert (k + j) % |s| == k + j;
    } else {
      assert (k + j) % |s| == k + j - |s|;
    }
  }

  lemma RotationPermutes<T>(s: seq<T>, k: nat)
    requires k <= |s|
    ensures multiset(Rotation(s, k)) == multiset(s)
  {
    assert s == s[..k] + s[k..];
  }

  function EnhanceAll(songs: seq<SongDetailed>): (r: seq<EnhancedSong>)
    ensures |r| == |songs| && forall i :: 0 <= i < |songs| ==> r[i] == EnhanceSong(songs[i])
  {
    seq(|songs|, i requires 0 <= i < |songs| => EnhanceSong(songs[i]))
  }

  function FetchAll(plSongs: seq<SongFull>): (r: seq<SongDetailed>)
    ensures |r| == |plSongs| && forall i :: 0 <= i < |plSongs| ==> r[i] == FetchSongDetailed(plSongs[i])
  {
    seq(|plSongs|, i requires 0 <= i < |plSongs| => FetchSongDetailed(plSongs[i]))
  }

  /** `songs.findIndex(s => s.videoId === id)`. */
  function IndexOfSong(songs: seq<SongDetailed>, id: string): (r: int)
    ensures -1 <= r < |songs|
    ensures r >= 0 ==> songs[r].videoId == id
    ensures r == -1 <==> forall j :: 0 <= j < |songs| ==> songs[j].videoId != id
  {
    if songs == [] then -1
    else if songs[0].videoId == id then 0
    else
      var k := IndexOfSong(songs[1..], id);
      if k == -1 then -1 else k + 1
  }

  /** The queue `playPlaylist` installs when the chosen song is entry `k` of the playlist. */
  function PlaylistQueue(song: SongDetailed, songs: seq<SongDetailed>, k: nat): seq<EnhancedSong>
    requires k < |songs|
  {
    [EnhanceSong(song)] + EnhanceAll(songs[k + 1..] + songs[..k])
  }

  /** Entry `j >= 1` of the installed queue is playlist entry `(k + j) mod n`, enhanced. */
  lemma PlaylistQueueAt(song: SongDetailed, songs: seq<SongDetailed>, k: nat, j: nat)
    requires k < |songs| && 1 <= j < |songs|
    ensures PlaylistQueue(song, songs, k)[j] == EnhanceSong(songs[(k + j) % |songs|])
  {
    var rest := songs[k + 1..] + songs[..k];
    var rot := Rotation(songs, k);
    assert rest == rot[1..];
    assert PlaylistQueue(song, songs, k)[j] == EnhanceAll(rest)[j - 1];
    RotationIndex(songs, k, j);
  }

  /**
   * The installed queue is the playlist rotated to start at the chosen song:
   * same length, the chosen song first, and every later entry the playlist
   * entry `(k + j) mod n`; so its ids are exactly the rotated playlist's ids.
   */
  lemma PlaylistQueueIsRotation(song: SongDetailed, songs: seq<SongDetailed>, k: nat)
    requires k < |songs| && songs[k].videoId == song.videoId
    ensures var q := PlaylistQueue(song, songs, k);
      && |q| == |songs|
      && q[0] == EnhanceSong(song)
      && (forall j :: 1 <= j < |songs| ==> q[j] == EnhanceSong(songs[(k + j) % |songs|]))
      && (forall j :: 0 <= j < |songs| ==> q[j].Id() == Rotation(songs, k)[j].videoId)
  {
    var q := PlaylistQueue(song, songs, k);
    forall j | 1 <= j < |songs| ensures q[j] == EnhanceSong(songs[(k + j) % |songs|]) {
      PlaylistQueueAt(song, songs, k, j);
    }
    forall j | 0 <= j < |songs| ensures q[j].Id() == Rotation(songs, k)[j].videoId {
      RotationIndex(songs, k, j);
      if j == 0 {
        assert Rotation(songs, k)[0] == songs[k];
      }
    }
  }

  // ---------------------------------------------------------------------
  // The store
  // ---------------------------------------------------------------------

  datatype PlaybackState = Unstarted | Ended | Playing | Paused | Buffering | Cued

  datatype LoopMode = NoLoop | Single | WholeQueue

  datatype Lyrics = Lyrics(data: Option<string>, error: Option<string>)

  /** The payload of `sendPlayerRoomEvent`. */
  datatype RoomEvent =
    | PlayEvent(queue: seq<EnhancedSong>, nowPlaying: EnhancedSong)
    | PauseEvent
    | ResumeEvent
    | PreviousEvent(song: EnhancedSong)
    | SkipEvent(song: EnhancedSong)
    | LoopEvent(loop: LoopMode)
    | ShuffleEvent(shuffle: bool)
    | SeekEvent(time: int)

  /** A call into the YouTube player, the room API or the lyrics route. */
  datatype Effect =
    | Init
    | LoadVideo(videoId: string)
    | PlayVideo
    | PauseVideo
    | StopVideo
    | SeekVideo(seconds: int)
    | SetPlayerVolume(volume: int)
    | SetPlayerLoop(loopPlaylist: bool)
    | PlayInRoom(song: EnhancedSong)
    | AddToRoomQueue(song: EnhancedSong)
    | RemoveFromRoomQueue(videoId: string)
    | SetRoomQueue(queue: seq<EnhancedSong>)
    | SendRoomEvent(event: RoomEvent)
    | FetchLyrics

  /** `{ error: "No player instance" }`, or the normal return. */
  datatype Outcome = Done | NoPlayer

  /** Which way `skip` or `previous` went. */
  datatype Move =
    | MoveNoPlayer            // returned "No player instance"
    | Restarted               // seek to 0 and play again
    | Moved(song: EnhancedSong)  // moved to `song`
    | Stayed                  // no current song, or `skip` on a queue shorter than 2
    | Stuck                   // shuffled `skip` where every entry is the current song: the loop never ends

  function InitIfNeeded(hadPlayer: bool): seq<Effect> {
    if hadPlayer then [] else [Init]
  }

  function HostOnly(isHost: bool, e: Effect): seq<Effect> {
    if isHost then [e] else []
  }

  /**
   * The log after an ungated `play`, which appends to `log`, in order: the
   * creation of the player if there is none, the load of the video, the
   * room call for the enqueued song (host, not from the queue), the play,
   * the room call for what plays now (host), the play event with the
   * resulting queue, the lyrics fetch.
   */
  function PlayLog(log: seq<Effect>, hadPlayer: bool, song: SongDetailed, isHost: bool, fromQueue: bool,
                   queueAfter: seq<EnhancedSong>): seq<Effect> {
    var e := EnhanceSong(song);
    log + InitIfNeeded(hadPlayer) + [LoadVideo(song.videoId)]
    + (if fromQueue then [] else HostOnly(isHost, AddToRoomQueue(e)))
    + [PlayVideo] + HostOnly(isHost, PlayInRoom(e))
    + [SendRoomEvent(PlayEvent(queueAfter, e)), FetchLyrics]
  }

  /** The calls `skip` and `previous` make when they move to `song`. */
  function MoveEffects(event: RoomEvent, song: EnhancedSong, isHost: bool): seq<Effect> {
    [SendRoomEvent(event), LoadVideo(song.Id()), PlayVideo] + HostOnly(isHost, PlayInRoom(song))
  }

  /** The value of the player store (`PlayerStore`); `hasPlayer` says whether `player` is non-null. */
  datatype Store = Store(
    hasPlayer: bool,
    queue: seq<EnhancedSong>,
    shuffle: bool,
    state: PlaybackState,
    loop: LoopMode,
    meta: Option<EnhancedSong>,
    totalDuration: int,
    currentTime: int,
    showQueue: bool,
    lyrics: Lyrics,
    showLyrics: bool)

  /** The value the store starts with. */
  const InitialStore := Store(false, [], false, Unstarted, NoLoop, None, 0, 0, false, Lyrics(None, None), false)

  /** What `stop` leaves: the initial value, except that the player stays. */
  function Stopped(hasPlayer: bool): (r: Store)
    ensures r == InitialStore.(hasPlayer := hasPlayer)
  {
    Store(hasPlayer, [], false, Unstarted, NoLoop, None, 0, 0, false, Lyrics(None, None), false)
  }

  /** The store after a queue change: a queue shorter than 2 turns shuffle and the queue panel off. */
  function Requeued(st: Store, q: seq<EnhancedSong>): (r: Store)
    ensures r.queue == q && (|q| < 2 ==> !r.shuffle && !r.showQueue)
  {
    if |q| < 2 then st.(queue := q, shuffle := false, showQueue := false) else st.(queue := q)
  }

  /**
   * The writable `store` of the player, whose value is replaced by each
   * `store.update`, together with the log of calls made to code outside.
   */
  class PlayerStore {
    var s: Store
    /** The calls made so far, oldest first. */
    var effects: seq<Effect>

    constructor ()
      ensures s == InitialStore && effects == []
    {
      s := InitialStore;
      effects := [];
    }

    /** `init`: creates the embedded player; its listeners are not part of this model. */
    method InitPlayer()
      modifies this
      ensures s == old(s).(hasPlayer := true) && effects == old(effects) + [Init]
    {
      s := s.(hasPlayer := true);
      effects := effects + [Init];
    }

    /** `addToQueue(song)`. */
    method AddToQueue(song: SongDetailed, isHost: bool) returns (r: Outcome)
      modifies this
      ensures r == NoPlayer <==> !old(s.hasPlayer)
      ensures r == NoPlayer ==> s == old(s) && effects == old(effects)
      ensures r == Done ==>
        (&& s == old(s).(queue := Enqueued(old(s.queue), EnhanceSong(song)))
         && effects == old(effects) + HostOnly(isHost, AddToRoomQueue(EnhanceSong(song))))
    {
      if !s.hasPlayer {
        return NoPlayer;
      }
      var e := EnhanceSong(song);
      s := s.(queue := WithoutId(s.queue, song.videoId));
      s := s.(queue := s.queue + [e]);
      if isHost {
        effects := effects + [AddToRoomQueue(e)];
      }
      return Done;
    }

    /** `removeFromQueue(song)`. */
    method RemoveFromQueue(song: SongDetailed, isHost: bool) returns (r: Outcome)
      modifies this
      ensures r == NoPlayer <==> !old(s.hasPlayer)
      ensures r == NoPlayer ==> s == old(s) && effects == old(effects)
      ensures r == Done ==>
        (&& s == Requeued(old(s), WithoutId(old(s.queue), song.videoId))
         && effects == old(effects) + HostOnly(isHost, RemoveFromRoomQueue(song.videoId)))
    {
      if !s.hasPlayer {
        return NoPlayer;
      }
      s := s.(queue := WithoutId(s.queue, song.videoId));
      if |s.queue| < 2 {
        s := s.(shuffle := false, showQueue := false);
      }
      if isHost {
        effects := effects + [RemoveFromRoomQueue(song.videoId)];
      }
      return Done;
    }

    /** `clearQueue()`. */
    method ClearQueue() returns (r: Outcome)
      modifies this
      ensures r == NoPlayer <==> !old(s.hasPlayer)
      ensures r == NoPlayer ==> s == old(s)
      ensures r == Done ==> s == old(s).(queue := [], shuffle := false, showQueue := false)
      ensures effects == old(effects)
    {
      if !s.hasPlayer {
        return NoPlayer;
      }
      s := s.(queue := [], shuffle := false, showQueue := false);
      return Done;
    }

    /** `togglePause()`: pauses a playing video and resumes anything else. */
    method TogglePause() returns (r: Outcome)
      modifies this
      ensures r == NoPlayer <==> !old(s.hasPlayer)
      ensures s == old(s)
      ensures r == NoPlayer ==> effects == old(effects)
      ensures r == Done ==>
        effects == old(effects) + (if s.state == Playing then [PauseVideo, SendRoomEvent(PauseEvent)]
                                   else [PlayVideo, SendRoomEvent(ResumeEvent)])
    {
      if !s.hasPlayer {
        return NoPlayer;
      }
      if s.state == Playing {
        effects := effects + [PauseVideo, SendRoomEvent(PauseEvent)];
      } else {
        effects := effects + [PlayVideo, SendRoomEvent(ResumeEvent)];
      }
      return Done;
    }

    /** `stop()`: stops the video and resets everything except the player itself. */
    method Stop() returns (r: Outcome)
      modifies this
      ensures r == NoPlayer <==> !old(s.hasPlayer)
      ensures r == NoPlayer ==> s == old(s) && effects == old(effects)
      ensures r == Done ==> s == Stopped(true) && effects == old(effects) + [StopVideo]
    {
      if !s.hasPlayer {
        return NoPlayer;
      }
      effects := effects + [StopVideo];
      s := s.(queue := [], shuffle := false, state := Unstarted, loop := NoLoop, meta := None,
              totalDuration := 0, currentTime := 0, showQueue := false, lyrics := Lyrics(None, None),
              showLyrics := false);
      return Done;
    }

    /** `setVolume(vol)`. */
    method SetVolume(volume: int) returns (r: Outcome)
      modifies this
      ensures r == NoPlayer <==> !old(s.hasPlayer)
      ensures s == old(s)
      ensures effects == old(effects) + (if r == Done then [SetPlayerVolume(volume)] else [])
    {
      if !s.hasPlayer {
        return NoPlayer;
      }
      effects := effects + [SetPlayerVolume(volume)];
      return Done;
    }

    /** `setLoop(loop)`: the embedded player loops its playlist only in queue mode. */
    method SetLoop(mode: LoopMode) returns (r: Outcome)
      modifies this
      ensures r == NoPlayer <==> !old(s.hasPlayer)
      ensures r == NoPlayer ==> s == old(s) && effects == old(effects)
      ensures r == Done ==>
        (&& s == old(s).(loop := mode)
         && effects == old(effects) + [SetPlayerLoop(mode == WholeQueue), SendRoomEvent(LoopEvent(mode))])
    {
      if !s.hasPlayer {
        return NoPlayer;
      }
      effects := effects + [SetPlayerLoop(mode == WholeQueue)];
      s := s.(loop := mode);
      effects := effects + [SendRoomEvent(LoopEvent(mode))];
      return Done;
    }

    /** `setShuffle(shuffle)`. */
    method SetShuffle(on: bool) returns (r: Outcome)
      modifies this
      ensures r == NoPlayer <==> !old(s.hasPlayer)
      ensures r == NoPlayer ==> s == old(s) && effects == old(effects)
      ensures r == Done ==> s == old(s).(shuffle := on) && effects == old(effects) + [SendRoomEvent(ShuffleEvent(on))]
    {
      if !s.hasPlayer {
        return NoPlayer;
      }
      s := s.(shuffle := on);
      effects := effects + [SendRoomEvent(ShuffleEvent(on))];
      return Done;
    }

    /** `seekTo(time)`. */
    method SeekTo(time: int) returns (r: Outcome)
      modifies this
      ensures r == NoPlayer <==> !old(s.hasPlayer)
      ensures s == old(s)
      ensures effects == old(effects) + (if r == Done then [SeekVideo(time), SendRoomEvent(SeekEvent(time))] else [])
    {
      if !s.hasPlayer {
        return NoPlayer;
      }
      effects := effects + [SeekVideo(time), SendRoomEvent(SeekEvent(time))];
      return Done;
    }

    /** `toggleQueue()`: opening the queue panel closes the lyrics panel. */
    method ToggleQueue()
      modifies this
      ensures s == old(s).(showQueue := !old(s.showQueue), showLyrics := false) && effects == old(effects)
    {
      s := s.(showQueue := !s.showQueue, showLyrics := false);
    }

    /** `toggleLyrics()`: opening the lyrics panel closes the queue panel. */
    method ToggleLyrics()
      modifies this
      ensures s == old(s).(showQueue := false, showLyrics := !old(s.showLyrics)) && effects == old(effects)
    {
      s := s.(showQueue := false, showLyrics := !s.showLyrics);
    }

    /**
     * `play(song, userId, fromQueue, fromRoom)`. Outside a room event, only the
     * host may play: anyone else just gets a player created. Otherwise the
     * song becomes the current one, is enqueued unless it comes from the
     * queue, and the room is told.
     */
    method Play(song: SongDetailed, isHost: bool, fromQueue: bool, fromRoom: bool)
      modifies this
      ensures !fromRoom && !isHost ==>
        s == old(s).(hasPlayer := true) && effects == old(effects) + InitIfNeeded(old(s.hasPlayer))
      ensures fromRoom || isHost ==>
        var e := EnhanceSong(song);
        && s == old(s).(hasPlayer := true, meta := Some(e),
                        queue := if fromQueue then old(s.queue) else Enqueued(old(s.queue), e))
        && effects == PlayLog(old(effects), old(s.hasPlayer), song, isHost, fromQueue, s.queue)
    {
      if !fromRoom && !isHost {
        if !s.hasPlayer {
          InitPlayer();
        }
        return;
      }
      var e := EnhanceSong(song);
      s := s.(meta := Some(e));
      if !s.hasPlayer {
        InitPlayer();
      }
      assert effects == old(effects) + InitIfNeeded(old(s.hasPlayer));
      effects := effects + [LoadVideo(song.videoId)];
      ghost var loaded := effects;
      if !fromQueue {
        var _ := AddToQueue(song, isHost);
      }
      assert effects == loaded + (if fromQueue then [] else HostOnly(isHost, AddToRoomQueue(e)));
      effects := effects + [PlayVideo];
      if isHost {
        effects := effects + [PlayInRoom(e)];
      }
      effects := effects + [SendRoomEvent(PlayEvent(s.queue, e)), FetchLyrics];
    }

    /**
     * `playPlaylist(song, plSongs)`: makes the song current, plays it, and, when
     * the song is in the playlist, replaces the queue by the playlist rotated
     * to start at it. The current song and the new queue are set whether or
     * not the caller hosts the room; only the play itself is gated.
     */
    method PlayPlaylist(song: SongDetailed, plSongs: seq<SongFull>, isHost: bool)
      modifies this
      ensures var songs := FetchAll(plSongs);
        var k := IndexOfSong(songs, song.videoId);
        var e := EnhanceSong(song);
        var played := if isHost then Enqueued(old(s.queue), e) else old(s.queue);
        s == old(s).(hasPlayer := true, meta := Some(e), queue := if k == -1 then played else PlaylistQueue(song, songs, k))
      ensures var k := IndexOfSong(FetchAll(plSongs), song.videoId);
        var init := old(effects) + InitIfNeeded(old(s.hasPlayer));
        var played := if isHost then Enqueued(old(s.queue), EnhanceSong(song)) else old(s.queue);
        var afterPlay := if isHost then PlayLog(init, true, song, true, false, played) else init;
        effects == if k == -1 then afterPlay else afterPlay + HostOnly(isHost, SetRoomQueue(s.queue))
    {
      var songs := FetchAll(plSongs);
      var e := EnhanceSong(song);
      s := s.(meta := Some(e));
      if !s.hasPlayer {
        InitPlayer();
      }
      ghost var init := effects;
      assert init == old(effects) + InitIfNeeded(old(s.hasPlayer));
      ghost var played := if isHost then Enqueued(old(s.queue), e) else old(s.queue);
      ghost var afterPlay := if isHost then PlayLog(init, true, song, true, false, played) else init;
      Play(song, isHost, false, false);
      assert s.queue == played && effects == afterPlay;
      var k := IndexOfSong(songs, song.videoId);
      if k == -1 {
        return;
      }
      s := s.(queue := PlaylistQueue(song, songs, k));
      if isHost {
        effects := effects + [SetRoomQueue(s.queue)];
      }
    }

    /**
     * `skip(userId, song)`. Repeat-single restarts the song. Otherwise, with a
     * queue of at least two and a current song, it moves to the given song,
     * or to a random entry other than the current song when shuffling, or to
     * the next entry (wrapping to the first); the current song's entries are
     * consumed unless the whole queue loops. In every branch that returns,
     * a queue left shorter than 2 turns shuffle and the queue panel off.
     */
    method Skip(isHost: bool, song: Option<EnhancedSong>) returns (m: Move)
      modifies this
      ensures m == MoveNoPlayer <==> !old(s.hasPlayer)
      ensures m == MoveNoPlayer || m == Stuck ==> s == old(s) && effects == old(effects)
      ensures m == Restarted <==> old(s.hasPlayer) && old(s.loop) == Single
      ensures m == Restarted ==>
        s == Requeued(old(s), old(s.queue)) && effects == old(effects) + [SeekVideo(0), PlayVideo, FetchLyrics]
      ensures m == Stayed ==>
        (&& s == Requeued(old(s), old(s.queue)) && effects == old(effects) + [FetchLyrics]
         && (|old(s.queue)| < 2 || CurrentId(old(s.meta)).None?))
      ensures m.Moved? || m == Stuck ==>
        old(s.loop) != Single && |old(s.queue)| >= 2 && CurrentId(old(s.meta)).Some?
      ensures m.Moved? && |old(s.queue)| >= 2 && CurrentId(old(s.meta)).Some? ==>
        (var q, current := old(s.queue), CurrentId(old(s.meta)).value;
         && (song.Some? ==> m.song == song.value)
         && (song.None? && old(s.shuffle) ==> m.song in q && m.song.Id() != current)
         && (song.None? && !old(s.shuffle) ==> m.song == q[NextIndex(IndexOfId(q, current), |q|)])
         && s == Requeued(old(s).(meta := FindById(q, m.song.Id())),
                          if old(s.loop) == WholeQueue then q else WithoutId(q, current))
         && effects == old(effects) + MoveEffects(SkipEvent(m.song), m.song, isHost) + [FetchLyrics])
      ensures m == Stuck && CurrentId(old(s.meta)).Some? ==>
        (&& song.None? && old(s.shuffle)
         && forall i :: 0 <= i < |old(s.queue)| ==> old(s.queue)[i].Id() == CurrentId(old(s.meta)).value)
    {
      if !s.hasPlayer {
        return MoveNoPlayer;
      }
      if s.loop == Single {
        effects := effects + [SeekVideo(0), PlayVideo];
        m := Restarted;
      } else if |s.queue| >= 2 && CurrentId(s.meta).Some? {
        var queue := s.queue;
        var current := CurrentId(s.meta).value;
        var next: EnhancedSong;
        if song.Some? {
          next := song.value;
        } else if s.shuffle {
          if i :| 0 <= i < |queue| && queue[i].Id() != current {
            next := queue[i];
          } else {
            return Stuck;
          }
        } else {
          next := queue[NextIndex(IndexOfId(queue, current), |queue|)];
        }
        s := s.(meta := FindById(s.queue, next.Id()));
        if s.loop != WholeQueue {
          s := s.(queue := WithoutId(s.queue, current));
        }
        effects := effects + MoveEffects(SkipEvent(next), next, isHost);
        m := Moved(next);
      } else {
        m := Stayed;
      }
      if |s.queue| < 2 {
        s := s.(shuffle := false, showQueue := false);
      }
      effects := effects + [FetchLyrics];
    }

    /**
     * `previous(userId, song)`. With at most one queued song, or repeat-single,
     * it restarts the song. Otherwise, with a current song, it moves to the
     * given song, or to a random entry when shuffling, or to the entry before
     * the current one (wrapping to the last). The queue is never changed.
     */
    method Previous(isHost: bool, song: Option<EnhancedSong>) returns (m: Move)
      modifies this
      ensures m == MoveNoPlayer <==> !old(s.hasPlayer)
      ensures m != Stuck
      ensures m == MoveNoPlayer ==> effects == old(effects)
      ensures m == Restarted <==> old(s.hasPlayer) && (|old(s.queue)| <= 1 || old(s.loop) == Single)
      ensures m == Restarted ==> effects == old(effects) + [SeekVideo(0), PlayVideo, FetchLyrics]
      ensures m == Stayed ==> effects == old(effects) + [FetchLyrics] && CurrentId(old(s.meta)).None?
      ensures !m.Moved? ==> s == old(s)
      ensures m.Moved? ==> old(s.loop) != Single && |old(s.queue)| >= 2 && CurrentId(old(s.meta)).Some?
      ensures m.Moved? && |old(s.queue)| >= 2 && CurrentId(old(s.meta)).Some? ==>
        (var q, current := old(s.queue), CurrentId(old(s.meta)).value;
         && (song.Some? ==> m.song == song.value)
         && (song.None? && old(s.shuffle) ==> m.song in q)
         && (song.None? && !old(s.shuffle) ==> m.song == q[PrevIndex(IndexOfId(q, current), |q|)])
         && s == old(s).(meta := FindById(q, m.song.Id()))
         && effects == old(effects) + MoveEffects(PreviousEvent(m.song), m.song, isHost) + [FetchLyrics])
    {
      if !s.hasPlayer {
        return MoveNoPlayer;
      }
      if |s.queue| <= 1 || s.loop == Single {
        effects := effects + [SeekVideo(0), PlayVideo];
        m := Restarted;
      } else if CurrentId(s.meta).Some? {
        var queue := s.queue;
        var current := CurrentId(s.meta).value;
        var prev: EnhancedSong;
        if song.Some? {
          prev := song.value;
        } else if s.shuffle {
          var i :| 0 <= i < |queue|;
          prev := queue[i];
        } else {
          prev := queue[PrevIndex(IndexOfId(queue, current), |queue|)];
        }
        s := s.(meta := FindById(s.queue, prev.Id()));
        effects := effects + MoveEffects(PreviousEvent(prev), prev, isHost);
        m := Moved(prev);
      } else {
        m := Stayed;
      }
      effects := effects + [FetchLyrics];
    }
  }

  /**
   * In a queue without duplicate ids, an unshuffled skip or previous from a
   * queued song finds it at its own position, and the song it moves to
   * becomes `meta` itself (the lookup by id finds that very entry).
   */
  lemma NeighbourIsFound(q: seq<EnhancedSong>, k: nat)
    requires NoDupIds(q) && k < |q|
    ensures IndexOfId(q, q[k].Id()) == k
    ensures FindById(q, q[NextIndex(k, |q|)].Id()) == Some(q[NextIndex(k, |q|)])
    ensures FindById(q, q[PrevIndex(k, |q|)].Id()) == Some(q[PrevIndex(k, |q|)])
  {
    IndexOfIdNoDup(q, k);
    FindByIdNoDup(q, NextIndex(k, |q|));
    FindByIdNoDup(q, PrevIndex(k, |q|));
  }
}
