/**
 * The song records of the YouTube Music metadata provider, as far as the
 * application reads them, and the projection of a full song record onto a
 * detailed one (src/lib/playlist/index.ts; src/lib/player/index.ts holds an
 * identical copy).
 */
module Songs {
  import opened Wrappers
  import opened Thumbnail

  datatype Artist = Artist(name: string, artistId: Option<string>)

  datatype Album = Album(name: string, albumId: string)

  /** A search-result song: what the player queues and plays. */
  datatype SongDetailed = SongDetailed(
    kind: string,
    name: string,
    videoId: string,
    artist: Artist,
    album: Option<Album>,
    duration: Option<int>,
    thumbnails: seq<ThumbnailInfo>)

  /**
   * A full song record. `formats` stands for the streaming data the provider
   * adds on top of the detailed fields; nothing in the application reads it.
   */
  datatype SongFull = SongFull(
    kind: string,
    name: string,
    videoId: string,
    artist: Artist,
    duration: Option<int>,
    thumbnails: seq<ThumbnailInfo>,
    formats: seq<string>)

  /** The album a projected song carries: both fields empty. */
  const EmptyAlbum := Album("", "")

  /** `fetchSongDetailed`: copies the identifying and display fields and blanks the album. */
  function FetchSongDetailed(song: SongFull): (r: SongDetailed)
    ensures r.kind == song.kind && r.name == song.name && r.videoId == song.videoId
    ensures r.artist == song.artist && r.duration == song.duration && r.thumbnails == song.thumbnails
    ensures r.album == Some(Album("", ""))
  {
    SongDetailed(song.kind, song.name, song.videoId, song.artist, Some(EmptyAlbum), song.duration, song.thumbnails)
  }

  /**
   * The projection forgets the streaming data: two full records that agree on
   * the six copied fields project to the same detailed song.
   */
  lemma FetchSongDetailedForgetsFormats(a: SongFull, b: SongFull)
    requires a.kind == b.kind && a.name == b.name && a.videoId == b.videoId
    requires a.artist == b.artist && a.duration == b.duration && a.thumbnails == b.thumbnails
    ensures FetchSongDetailed(a) == FetchSongDetailed(b)
  {
  }
}
