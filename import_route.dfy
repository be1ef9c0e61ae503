/**
 * The playlist import route (src/routes/api/import/+server.ts): a Spotify or
 * YouTube Music playlist is fetched, a playlist row is created for the
 * caller, each track is matched to a video id (its own, or the first search
 * hit) and added, and the cover is taken from the last song added.
 *
 * The answers of the remote services are parameters: the Spotify playlist,
 * the YouTube Music playlist and its videos, the search (`search(query)` is
 * the list of video ids found, best first) and the thumbnail URLs of a song.
 * The database rows this handler creates are the field `playlists`, the id of
 * a row being its index.
 */
module ImportRoute {
  import opened Wrappers
  import opened Text

  /** `PlaylistTrack`. */
  datatype Track = Track(name: string, artist: string, videoId: Option<string>)

  /** What the fetch helpers return when they find a playlist. */
  datatype SourcePlaylist = SourcePlaylist(name: string, tracks: seq<Track>)

  /** A Spotify track object: its `type`, name and artist names. */
  datatype SpotifyTrack = SpotifyTrack(kind: string, name: string, artists: seq<string>)

  /** A Spotify playlist: `tracks.total` and, per item, the track if there is one. */
  datatype SpotifyPlaylist = SpotifyPlaylist(name: string, total: int, items: seq<Option<SpotifyTrack>>)

  /** An item that is imported: it has a track, and the track is a song rather than an episode. */
  predicate IsSongItem(item: Option<SpotifyTrack>) {
    item.Some? && item.value.kind == "track"
  }

  /** The track pushed for a Spotify song: artist names joined by one space, no video id. */
  function FromSpotify(t: SpotifyTrack): (r: Track)
    ensures r.name == t.name && r.videoId.None?
    ensures |t.artists| == 1 ==> r.artist == t.artists[0]
  {
    Track(t.name, Join(t.artists, " "), None)
  }

  /** The tracks the Spotify loop pushes for the first `|items|` items. */
  function SpotifyTracks(items: seq<Option<SpotifyTrack>>): (r: seq<Track>)
    ensures |r| <= |items|
  {
    if items == [] then []
    else
      var last := items[|items| - 1];
      SpotifyTracks(items[..|items| - 1]) + (if IsSongItem(last) then [FromSpotify(last.value)] else [])
  }

  /** A track is pushed exactly when some item is a song that gives it. */
  lemma {:induction false} SpotifyTracksKept(items: seq<Option<SpotifyTrack>>, t: Track)
    ensures t in SpotifyTracks(items) <==>
      exists i :: 0 <= i < |items| && IsSongItem(items[i]) && t == FromSpotify(items[i].value)
  {
    if items != [] {
      var init := items[..|items| - 1];
      SpotifyTracksKept(init, t);
      if exists i :: 0 <= i < |init| && IsSongItem(init[i]) && t == FromSpotify(init[i].value) {
        var i :| 0 <= i < |init| && IsSongItem(init[i]) && t == FromSpotify(init[i].value);
        assert items[i] == init[i];
      }
      if exists i :: 0 <= i < |items| && IsSongItem(items[i]) && t == FromSpotify(items[i].value) {
        var i :| 0 <= i < |items| && IsSongItem(items[i]) && t == FromSpotify(items[i].value);
        if i < |init| {
          assert init[i] == items[i];
        }
      }
    }
  }

  /** With only songs, one track per item, in order. */
  lemma {:induction false} SpotifyTracksAllSongs(items: seq<Option<SpotifyTrack>>)
    requires forall i :: 0 <= i < |items| ==> IsSongItem(items[i])
    ensures |SpotifyTracks(items)| == |items|
    ensures forall i :: 0 <= i < |items| ==> IsSongItem(items[i]) && SpotifyTracks(items)[i] == FromSpotify(items[i].value)
  {
    if items != [] {
      var init := items[..|items| - 1];
      SpotifyTracksAllSongs(init);
    }
  }

  /** `fetchSpotifyPlaylist` after the fetch: nothing for a missing or empty playlist. */
  function FetchSpotify(pl: Option<SpotifyPlaylist>): (r: Option<SourcePlaylist>)
    ensures r.Some? <==> pl.Some? && pl.value.total > 0
  {
    if pl.None? || pl.value.total <= 0 then None
    else Some(SourcePlaylist(pl.value.name, SpotifyTracks(pl.value.items)))
  }

  /** The loop of `fetchSpotifyPlaylist`, which pushes one track per song item. */
  method FetchSpotifyPlaylist(pl: Option<SpotifyPlaylist>) returns (r: Option<SourcePlaylist>)
    ensures r == FetchSpotify(pl)
  {
    if pl.None? || pl.value.total <= 0 {
      return None;
    }
    var items := pl.value.items;
    var tracks: seq<Track> := [];
    for i := 0 to |items|
      invariant tracks == SpotifyTracks(items[..i])
    {
      assert items[..i + 1][..i] == items[..i];
      if IsSongItem(items[i]) {
        tracks := tracks + [FromSpotify(items[i].value)];
      }
    }
    assert items[..|items|] == items;
    return Some(SourcePlaylist(pl.value.name, tracks));
  }

  /** A YouTube Music playlist: its name and `videoCount`. */
  datatype YtPlaylist = YtPlaylist(name: string, videoCount: int)

  /** A video of `getPlaylistVideos`, with the fields the mapping reads. */
  datatype YtVideo = YtVideo(name: Option<string>, title: Option<string>, artistName: Option<string>, videoId: Option<string>)

  /** `x || fallback` for an optional string. */
  function OrElse(x: Option<string>, fallback: string): (r: string)
    ensures x.Some? && x.value != "" ==> r == x.value
    ensures x.None? || x.value == "" ==> r == fallback
  {
    if x.Some? && x.value != "" then x.value else fallback
  }

  /** The track for a video: name, else title, else ""; the artist's name, else "". */
  function FromYt(v: YtVideo): Track {
    Track(OrElse(v.name, OrElse(v.title, "")), OrElse(v.artistName, ""), v.videoId)
  }

  /**
   * `fetchYTMusicPlaylist` after its two fetches: nothing for a missing
   * playlist, a zero `videoCount` or an empty video list, otherwise one track
   * per video keeping the video's id.
   */
  function FetchYTMusic(pl: Option<YtPlaylist>, videos: Option<seq<YtVideo>>): (r: Option<SourcePlaylist>)
    ensures r.Some? <==> pl.Some? && pl.value.videoCount != 0 && videos.Some? && videos.value != []
    ensures r.Some? ==> r.value.name == pl.value.name && |r.value.tracks| == |videos.value|
    ensures r.Some? ==> forall i :: 0 <= i < |videos.value| ==> r.value.tracks[i].videoId == videos.value[i].videoId
  {
    if pl.None? || pl.value.videoCount == 0 then None
    else if videos.None? || videos.value == [] then None
    else Some(SourcePlaylist(pl.value.name, seq(|videos.value|, i requires 0 <= i < |videos.value| => FromYt(videos.value[i]))))
  }

  /** The search query for a track: its name, a space, its artist. */
  function Query(t: Track): string {
    t.name + " " + t.artist
  }

  /** `searchYTMusicSong` on the search's answer: the first hit, if any. */
  function FirstResult(results: seq<string>): (r: Option<string>)
    ensures r.Some? <==> |results| > 0
    ensures r.Some? ==> r.value == results[0]
  {
    if |results| > 0 then Some(results[0]) else None
  }

  /** `track.videoId || null` is not null. */
  predicate HasOwnId(t: Track) {
    t.videoId.Some? && t.videoId.value != ""
  }

  /** The video id a track is imported as, if any: its own, else a non-empty first search hit. */
  function Resolve(t: Track, search: string -> seq<string>): (r: Option<string>)
    ensures r.Some? ==> r.value != ""
    ensures HasOwnId(t) ==> r == t.videoId
    ensures !HasOwnId(t) ==> (r.None? <==> |search(Query(t))| == 0 || search(Query(t))[0] == "")
    ensures !HasOwnId(t) && r.Some? ==> r.value == search(Query(t))[0]
  {
    if HasOwnId(t) then t.videoId
    else
      var found := FirstResult(search(Query(t)));
      if found.Some? && found.value != "" then found else None
  }

  /** The ids added to the playlist for `tracks`, in track order. */
  function Matched(tracks: seq<Track>, search: string -> seq<string>): (r: seq<string>)
    ensures |r| <= |tracks|
  {
    if tracks == [] then []
    else
      var last := tracks[|tracks| - 1];
      var id := Resolve(last, search);
      Matched(tracks[..|tracks| - 1], search) + (if id.Some? then [id.value] else [])
  }

  /** How many of `tracks` are not matched. */
  function Unmatched(tracks: seq<Track>, search: string -> seq<string>): nat {
    if tracks == [] then 0
    else
      var last := tracks[|tracks| - 1];
      Unmatched(tracks[..|tracks| - 1], search) + (if Resolve(last, search).None? then 1 else 0)
  }

  /** The queries sent to the search for `tracks`: one per track without its own id. */
  function Queries(tracks: seq<Track>): (r: seq<string>)
    ensures |r| <= |tracks|
  {
    if tracks == [] then []
    else
      var last := tracks[|tracks| - 1];
      Queries(tracks[..|tracks| - 1]) + (if HasOwnId(last) then [] else [Query(last)])
  }

  /** One more track: what it adds to the ids, the unmatched count and the queries. */
  lemma ImportStep(tracks: seq<Track>, i: nat, search: string -> seq<string>)
    requires i < |tracks|
    ensures var id := Resolve(tracks[i], search);
      && Matched(tracks[..i + 1], search) == Matched(tracks[..i], search) + (if id.Some? then [id.value] else [])
      && Unmatched(tracks[..i + 1], search) == Unmatched(tracks[..i], search) + (if id.None? then 1 else 0)
      && Queries(tracks[..i + 1]) == Queries(tracks[..i]) + (if HasOwnId(tracks[i]) then [] else [Query(tracks[i])])
  {
    assert tracks[..i + 1][..i] == tracks[..i];
  }

  /** The last element of a sequence, if any. */
  function LastOf(s: seq<string>): (r: Option<string>)
    ensures r.None? <==> s == []
    ensures r.Some? ==> r.value == s[|s| - 1]
  {
    if s == [] then None else Some(s[|s| - 1])
  }

  /** Every track is either imported or counted as unmatched. */
  lemma {:induction false} MatchedCount(tracks: seq<Track>, search: string -> seq<string>)
    ensures |Matched(tracks, search)| + Unmatched(tracks, search) == |tracks|
  {
    if tracks != [] {
      MatchedCount(tracks[..|tracks| - 1], search);
    }
  }

  /**
   * Tracks that carry their own ids are imported as those ids, in order, and
   * nothing is searched for.
   */
  lemma {:induction false} OwnIdsNoSearch(tracks: seq<Track>, search: string -> seq<string>)
    requires forall i :: 0 <= i < |tracks| ==> HasOwnId(tracks[i])
    ensures Queries(tracks) == []
    ensures Unmatched(tracks, search) == 0
    ensures |Matched(tracks, search)| == |tracks|
    ensures forall i :: 0 <= i < |tracks| ==> HasOwnId(tracks[i]) && Matched(tracks, search)[i] == tracks[i].videoId.value
  {
    if tracks != [] {
      OwnIdsNoSearch(tracks[..|tracks| - 1], search);
    }
  }

  /** A track without its own id and without a usable search hit is never imported. */
  lemma {:induction false} NoHitsNothingMatched(tracks: seq<Track>, search: string -> seq<string>)
    requires forall i :: 0 <= i < |tracks| ==> !HasOwnId(tracks[i]) && search(Query(tracks[i])) == []
    ensures Matched(tracks, search) == []
    ensures Unmatched(tracks, search) == |tracks|
    ensures |Queries(tracks)| == |tracks|
  {
    if tracks != [] {
      NoHitsNothingMatched(tracks[..|tracks| - 1], search);
    }
  }

  /** The size suffix removed from the cover URL. */
  const SmallSize := "=w60-h60-l90-rj"

  /** The cover set after the loop: the first thumbnail of the last song added, without its size suffix. */
  function Cover(matched: seq<string>, thumbnails: string -> seq<string>): (r: Option<string>)
    ensures matched == [] ==> r.None?
    ensures matched != [] ==> (r.Some? <==> thumbnails(matched[|matched| - 1]) != [])
    ensures r.Some? && !Contains(thumbnails(matched[|matched| - 1])[0], SmallSize) ==>
      r.value == thumbnails(matched[|matched| - 1])[0]
  {
    if matched == [] then None
    else
      var urls := thumbnails(matched[|matched| - 1]);
      if urls == [] then None else Some(ReplaceFirst(urls[0], SmallSize, ""))
  }

  /** The cover is found from the last id added, when there is one. */
  lemma CoverOfLast(matched: seq<string>, thumbnails: string -> seq<string>)
    ensures Cover(matched, thumbnails) ==
      if LastOf(matched).None? || thumbnails(LastOf(matched).value) == [] then None
      else Some(ReplaceFirst(thumbnails(LastOf(matched).value)[0], SmallSize, ""))
  {
  }

  /** `ImportResult`. */
  datatype ImportResult = ImportResult(
    success: bool,
    message: Option<string>,
    error: Option<string>,
    totalSongs: nat,
    importedSongs: nat,
    unmatchedSongs: nat)

  /** A failed import: an error and all counts 0. */
  function Failure(error: string): (r: ImportResult)
    ensures !r.success && r.error == Some(error)
    ensures r.totalSongs == 0 && r.importedSongs == 0 && r.unmatchedSongs == 0
  {
    ImportResult(false, None, Some(error), 0, 0, 0)
  }

  /** The two sources the route knows. */
  predicate Supported(source: string) {
    source == "spotify" || source == "ytmusic"
  }

  /** The playlist the fetch helper of `source` returns. */
  function Fetched(source: string, spotify: Option<SpotifyPlaylist>, ytPlaylist: Option<YtPlaylist>, ytVideos: Option<seq<YtVideo>>): Option<SourcePlaylist> {
    if source == "spotify" then FetchSpotify(spotify) else FetchYTMusic(ytPlaylist, ytVideos)
  }

  /** The success message: "Imported 3 out of 5 songs". */
  function ImportedMessage(imported: nat, total: nat): (m: string)
    ensures StartsWith(m, "Imported ")
  {
    "Imported " + NatToString(imported) + " out of " + NatToString(total) + " songs"
  }

  /** The message's words are fixed, and its two numbers read back as the counts. */
  lemma ImportedMessageReadsBack(imported: nat, total: nat)
    ensures var words := Split(ImportedMessage(imported, total), ' ');
      && |words| == 6
      && words[0] == "Imported" && words[2] == "out" && words[3] == "of" && words[5] == "songs"
      && AllDigits(words[1]) && AllDigits(words[4])
      && ParseNat(words[1]) == imported && ParseNat(words[4]) == total
  {
    var n, t := NatToString(imported), NatToString(total);
    var words := ["Imported", n, "out", "of", t, "songs"];
    assert Join(words[4..], " ") == t + " songs";
    assert Join(words[3..], " ") == "of " + t + " songs";
    assert Join(words[2..], " ") == "out of " + t + " songs";
    assert Join(words[1..], " ") == n + " out of " + t + " songs";
    assert Join(words, " ") == ImportedMessage(imported, total);
    assert ' ' !in n by { assert forall i :: 0 <= i < |n| ==> IsDigit(n[i]); }
    assert ' ' !in t by { assert forall i :: 0 <= i < |t| ==> IsDigit(t[i]); }
    SplitJoin(words, ' ');
    ParseNatToString(imported);
    ParseNatToString(total);
  }

  /** The result of an import of `data` that found a playlist. */
  function Outcome(data: SourcePlaylist, search: string -> seq<string>): (r: ImportResult)
    ensures r.success && r.error.None?
    ensures r.totalSongs == |data.tracks|
    ensures r.importedSongs + r.unmatchedSongs == r.totalSongs
  {
    MatchedCount(data.tracks, search);
    var imported := |Matched(data.tracks, search)|;
    ImportResult(true, Some(ImportedMessage(imported, |data.tracks|)), None, |data.tracks|, imported, Unmatched(data.tracks, search))
  }

  /** A playlist row this handler created. */
  datatype CreatedPlaylist = CreatedPlaylist(userId: string, name: string, songs: seq<string>, cover: Option<string>)

  /** The row an import of `data` leaves behind. */
  function ImportedRow(userId: string, data: SourcePlaylist, search: string -> seq<string>, thumbnails: string -> seq<string>): (r: CreatedPlaylist)
    ensures r.userId == userId && r.name == TakeTrim(data.name, 20) && |r.name| <= 20
    ensures r.songs == Matched(data.tracks, search)
    ensures r.cover == Cover(Matched(data.tracks, search), thumbnails)
  {
    var songs := Matched(data.tracks, search);
    CreatedPlaylist(userId, TakeTrim(data.name, 20), songs, Cover(songs, thumbnails))
  }

  /** The answers of `POST`. */
  datatype PostResponse =
    | Unauthorized
    | BodyUnreadable
    | MissingParameters
    | NotFound(error: string)
    | Imported(result: ImportResult)
  {
    function Status(): int {
      match this
      case Unauthorized => 401
      case BodyUnreadable => 500
      case MissingParameters => 400
      case NotFound(_) => 404
      case Imported(_) => 200
    }
  }

  /** A body parameter is truthy when present and not empty. */
  predicate Given(p: Option<string>) {
    p.Some? && p.value != ""
  }

  class Importer {
    /** The playlist rows created by imports, the id of a row being its index. */
    var playlists: seq<CreatedPlaylist>
    /** The queries sent to the song search, in order. */
    var searches: seq<string>

    constructor ()
      ensures playlists == [] && searches == []
    {
      playlists := [];
      searches := [];
    }

    /** `createPlaylist(db, userId, name)`: a new empty row, whose id is returned. */
    method CreatePlaylist(userId: string, name: string) returns (id: nat)
      modifies this
      ensures id == |old(playlists)|
      ensures playlists == old(playlists) + [CreatedPlaylist(userId, name, [], None)]
      ensures searches == old(searches)
    {
      id := |playlists|;
      playlists := playlists + [CreatedPlaylist(userId, name, [], None)];
    }

    /** `addSongToPlaylist(db, id, videoId)`: the song goes at the end of the row's songs. */
    method AddSong(id: nat, videoId: string)
      requires id < |playlists|
      modifies this
      ensures playlists == old(playlists)[id := old(playlists)[id].(songs := old(playlists)[id].songs + [videoId])]
      ensures searches == old(searches)
    {
      playlists := playlists[id := playlists[id].(songs := playlists[id].songs + [videoId])];
    }

    /** `setPlaylistCover(db, id, url)`. */
    method SetCover(id: nat, url: string)
      requires id < |playlists|
      modifies this
      ensures playlists == old(playlists)[id := old(playlists)[id].(cover := Some(url))]
      ensures searches == old(searches)
    {
      playlists := playlists[id := playlists[id].(cover := Some(url))];
    }

    /** `searchYTMusicSong(name, artist)`: one search, whose first hit is returned. */
    method SearchSong(t: Track, search: string -> seq<string>) returns (r: Option<string>)
      modifies this
      ensures r == FirstResult(search(Query(t)))
      ensures searches == old(searches) + [Query(t)] && playlists == old(playlists)
    {
      searches := searches + [Query(t)];
      r := FirstResult(search(Query(t)));
    }

    /**
     * One turn of the import loop: the track's own id, else a search; a
     * match is added to the row `id`.
     */
    method ImportTrack(id: nat, track: Track, search: string -> seq<string>) returns (added: Option<string>)
      requires id < |playlists|
      modifies this
      ensures added == Resolve(track, search)
      ensures playlists == old(playlists)[id := old(playlists)[id].(
        songs := old(playlists)[id].songs + (if added.Some? then [added.value] else []))]
      ensures searches == old(searches) + (if HasOwnId(track) then [] else [Query(track)])
    {
      var videoId := if HasOwnId(track) then track.videoId else None;
      if !HasOwnId(track) {
        videoId := SearchSong(track, search);
      }
      if videoId.None? || videoId.value == "" {
        assert playlists[id].songs + [] == playlists[id].songs;
        assert playlists[id := playlists[id]] == playlists;
        return None;
      }
      AddSong(id, videoId.value);
      return videoId;
    }

    /**
     * The loop of `importPlaylistFromSource` over `tracks`, for the row `id`
     * just created: the counts and the last id added.
     */
    method ImportTracks(id: nat, tracks: seq<Track>, search: string -> seq<string>)
      returns (imported: nat, unmatched: nat, lastVideoId: Option<string>)
      requires id == |playlists| - 1 && playlists[id].songs == []
      modifies this
      ensures imported == |Matched(tracks, search)| && unmatched == Unmatched(tracks, search)
      ensures lastVideoId == LastOf(Matched(tracks, search))
      ensures playlists == old(playlists)[id := old(playlists)[id].(songs := Matched(tracks, search))]
      ensures searches == old(searches) + Queries(tracks)
    {
      ghost var row := playlists[id];
      ghost var rows := playlists[..id];
      ghost var searched := searches;
      assert playlists == rows + [row];
      imported, unmatched := 0, 0;
      lastVideoId := None;
      for i := 0 to |tracks|
        invariant playlists == rows + [row.(songs := Matched(tracks[..i], search))]
        invariant searches == searched + Queries(tracks[..i])
        invariant imported == |Matched(tracks[..i], search)| && unmatched == Unmatched(tracks[..i], search)
        invariant lastVideoId == LastOf(Matched(tracks[..i], search))
      {
        ghost var matched := Matched(tracks[..i], search);
        ImportStep(tracks, i, search);
        var videoId := ImportTrack(id, tracks[i], search);
        assert (rows + [row.(songs := matched)])[id := row.(songs := Matched(tracks[..i + 1], search))]
          == rows + [row.(songs := Matched(tracks[..i + 1], search))];
        if videoId.None? {
          unmatched := unmatched + 1;
        } else {
          lastVideoId := videoId;
          imported := imported + 1;
        }
      }
      assert tracks[..|tracks|] == tracks;
    }

    /** After the loop: the cover of row `id` from the last id added, if there is one. */
    method SetCoverFromLast(id: nat, lastVideoId: Option<string>, thumbnails: string -> seq<string>)
      requires id < |playlists|
      modifies this
      ensures lastVideoId.None? || thumbnails(lastVideoId.value) == [] ==> playlists == old(playlists)
      ensures lastVideoId.Some? && thumbnails(lastVideoId.value) != [] ==>
        playlists == old(playlists)[id := old(playlists)[id].(
          cover := Some(ReplaceFirst(thumbnails(lastVideoId.value)[0], SmallSize, "")))]
      ensures searches == old(searches)
    {
      if lastVideoId.Some? {
        var urls := thumbnails(lastVideoId.value);
        if |urls| > 0 {
          SetCover(id, ReplaceFirst(urls[0], SmallSize, ""));
        }
      }
    }

    /**
     * `importPlaylistFromSource(source, playlistID, userId)`: the answers of
     * the two fetches for that id are `spotify`, `ytPlaylist` and `ytVideos`.
     */
    method ImportFromSource(
      source: string, userId: string,
      spotify: Option<SpotifyPlaylist>, ytPlaylist: Option<YtPlaylist>, ytVideos: Option<seq<YtVideo>>,
      search: string -> seq<string>, thumbnails: string -> seq<string>)
      returns (r: ImportResult)
      modifies this
      ensures !Supported(source) ==>
        r == Failure("Unsupported source") && playlists == old(playlists) && searches == old(searches)
      ensures Supported(source) && Fetched(source, spotify, ytPlaylist, ytVideos).None? ==>
        r == Failure("Playlist not found or empty") && playlists == old(playlists) && searches == old(searches)
      ensures Supported(source) && Fetched(source, spotify, ytPlaylist, ytVideos).Some? ==>
        var data := Fetched(source, spotify, ytPlaylist, ytVideos).value;
        && r == Outcome(data, search)
        && playlists == old(playlists) + [ImportedRow(userId, data, search, thumbnails)]
        && searches == old(searches) + Queries(data.tracks)
    {
      var playlistData: Option<SourcePlaylist>;
      if source == "spotify" {
        playlistData := FetchSpotifyPlaylist(spotify);
      } else if source == "ytmusic" {
        playlistData := FetchYTMusic(ytPlaylist, ytVideos);
      } else {
        return Failure("Unsupported source");
      }
      if playlistData.None? {
        return Failure("Playlist not found or empty");
      }
      r := ImportPlaylist(userId, playlistData.value, search, thumbnails);
    }

    /** The rest of `importPlaylistFromSource` once a playlist `data` was found. */
    method ImportPlaylist(userId: string, data: SourcePlaylist, search: string -> seq<string>, thumbnails: string -> seq<string>)
      returns (r: ImportResult)
      modifies this
      ensures r == Outcome(data, search)
      ensures playlists == old(playlists) + [ImportedRow(userId, data, search, thumbnails)]
      ensures searches == old(searches) + Queries(data.tracks)
    {
      ghost var before := playlists;
      ghost var created := CreatedPlaylist(userId, TakeTrim(data.name, 20), [], None);
      var id := CreatePlaylist(userId, TakeTrim(data.name, 20));
      var imported, unmatched, lastVideoId := ImportTracks(id, data.tracks, search);
      ghost var filled := created.(songs := Matched(data.tracks, search));
      ReplaceLast(before, created, filled);
      SetCoverFromLast(id, lastVideoId, thumbnails);
      CoverOfLast(Matched(data.tracks, search), thumbnails);
      ReplaceLast(before, filled, ImportedRow(userId, data, search, thumbnails));
      OutcomeCounts(data, search, imported, unmatched);
      r := ImportResult(true, Some(ImportedMessage(imported, |data.tracks|)), None, |data.tracks|, imported, unmatched);
    }

    /**
     * `POST` with the caller's id (if logged in), whether the body parses as
     * JSON other than `null` (otherwise `request.json()` or the destructuring
     * throws, which SvelteKit answers with a 500), and the body's `source` and
     * `playlistID`.
     */
    method Post(
      user: Option<string>, bodyNonNull: bool, source: Option<string>, playlistId: Option<string>,
      spotify: Option<SpotifyPlaylist>, ytPlaylist: Option<YtPlaylist>, ytVideos: Option<seq<YtVideo>>,
      search: string -> seq<string>, thumbnails: string -> seq<string>)
      returns (resp: PostResponse)
      modifies this
      ensures user.None? ==> resp == Unauthorized && playlists == old(playlists) && searches == old(searches)
      ensures user.Some? && !bodyNonNull ==> resp == BodyUnreadable && playlists == old(playlists) && searches == old(searches)
      ensures user.Some? && bodyNonNull && !(Given(source) && Given(playlistId)) ==>
        resp == MissingParameters && playlists == old(playlists) && searches == old(searches)
      ensures user.Some? && bodyNonNull && Given(source) && Given(playlistId) ==>
        var data := Fetched(source.value, spotify, ytPlaylist, ytVideos);
        && (!Supported(source.value) ==>
             resp == NotFound("Unsupported source") && playlists == old(playlists) && searches == old(searches))
        && (Supported(source.value) && data.None? ==>
             resp == NotFound("Playlist not found or empty") && playlists == old(playlists) && searches == old(searches))
        && (Supported(source.value) && data.Some? ==>
             && resp == Imported(Outcome(data.value, search))
             && playlists == old(playlists) + [ImportedRow(user.value, data.value, search, thumbnails)]
             && searches == old(searches) + Queries(data.value.tracks))
    {
      if user.None? {
        return Unauthorized;
      }
      if !bodyNonNull {
        return BodyUnreadable;
      }
      if !Given(source) || !Given(playlistId) {
        return MissingParameters;
      }
      var result := ImportFromSource(source.value, user.value, spotify, ytPlaylist, ytVideos, search, thumbnails);
      if result.success {
        resp := Imported(result);
      } else {
        resp := NotFound(result.error.value);
      }
    }
  }

  /** Replacing the last row of `rows + [x]` by `y`. */
  lemma ReplaceLast(rows: seq<CreatedPlaylist>, x: CreatedPlaylist, y: CreatedPlaylist)
    ensures (rows + [x])[|rows| := y] == rows + [y]
  {
  }

  /** The result built from the loop's two counters is the outcome of the import. */
  lemma OutcomeCounts(data: SourcePlaylist, search: string -> seq<string>, imported: nat, unmatched: nat)
    requires imported == |Matched(data.tracks, search)| && unmatched == Unmatched(data.tracks, search)
    ensures Outcome(data, search) ==
      ImportResult(true, Some(ImportedMessage(imported, |data.tracks|)), None, |data.tracks|, imported, unmatched)
  {
  }
}
