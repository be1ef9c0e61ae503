/**
 * The song download route (src/routes/api/download/+server.ts): after its
 * checks it asks youtube-dl for the audio URL, fetches it and answers with
 * the stream under a file name made safe for file systems. The answers of
 * YouTube Music, youtube-dl and the fetch are parameters.
 */
module DownloadRoute {
  import opened Wrappers
  import opened Text

  /** The characters `/[/\\?%*:|"<>]/g` matches. */
  predicate Forbidden(c: char) {
    c in "/\\?%*:|\"<>"
  }

  /** `s.replace(/[/\\?%*:|"<>]/g, "-")`: each forbidden character becomes "-". */
  function Sanitise(s: string): (r: string)
    ensures |r| == |s|
    ensures forall i :: 0 <= i < |s| ==> r[i] == if Forbidden(s[i]) then '-' else s[i]
    ensures forall i :: 0 <= i < |r| ==> !Forbidden(r[i])
  {
    if s == [] then []
    else [if Forbidden(s[0]) then '-' else s[0]] + Sanitise(s[1..])
  }

  /** A name with nothing to replace is kept, so sanitising twice is sanitising once. */
  lemma {:induction false} SanitiseIdempotent(s: string)
    ensures (forall i :: 0 <= i < |s| ==> !Forbidden(s[i])) ==> Sanitise(s) == s
    ensures Sanitise(Sanitise(s)) == Sanitise(s)
  {
    if s != [] {
      SanitiseIdempotent(s[1..]);
    }
    var t := Sanitise(s);
    assert forall i :: 0 <= i < |t| ==> Sanitise(t)[i] == t[i];
  }

  /** `safeName`: the song's name, or "audio" when it has none, sanitised. */
  function SafeName(name: Option<string>): (r: string)
    ensures name.None? || name.value == "" ==> r == "audio"
    ensures name.Some? && name.value != "" ==> r == Sanitise(name.value)
  {
    Sanitise(if name.Some? && name.value != "" then name.value else "audio")
  }

  /** What youtube-dl answered: a string, an array of strings, or anything else. */
  datatype YtdlResult = Text(s: string) | List(items: seq<string>) | OtherValue

  /** `downloadURL`, or how computing it fails. */
  datatype UrlOutcome = Url(url: string) | NoUrl | TypeError

  /**
   * The download URL: the trimmed string, or the trimmed first element; an
   * empty array throws, and anything else or an empty URL gives none.
   */
  function DownloadUrl(result: YtdlResult): (r: UrlOutcome)
    ensures r.Url? ==> r.url != ""
    ensures result.Text? && Trim(result.s) != "" ==> r == Url(Trim(result.s))
    ensures result.List? && result.items != [] && Trim(result.items[0]) != "" ==> r == Url(Trim(result.items[0]))
    ensures r == TypeError <==> result.List? && result.items == []
    ensures result.OtherValue? ==> r == NoUrl
  {
    var url := match result
      case Text(s) => Some(Trim(s))
      case List(items) => if items == [] then None else Some(Trim(items[0]))
      case OtherValue => Some("");
    if url.None? then TypeError
    else if url.value == "" then NoUrl
    else Url(url.value)
  }

  /** What YouTube Music knows of the song. */
  datatype SongInfo = SongInfo(name: Option<string>, videoId: Option<string>)

  /** How fetching the audio URL ends: it throws, answers with an error status, or answers. */
  datatype Fetched = FetchThrew | FetchNotOk | FetchOk

  /** The answers of `GET`. */
  datatype Response =
    | Error(status: int, message: string)
    | Thrown(message: string)
    | LookupThrew
    | Audio(source: string, contentType: string, fileName: string)

  /** The page youtube-dl is asked about. */
  function WatchUrl(videoId: string): string {
    "https://youtube.com/watch?v=" + videoId
  }

  predicate Given(p: Option<string>) {
    p.Some? && p.value != ""
  }

  /**
   * `GET` for the caller (if logged in) and the query's `id`. `songThrew`
   * says whether asking YouTube Music for the id throws: that call comes
   * before the `try`, so its error escapes the handler. `song` is what
   * YouTube Music returns otherwise, `pathSet` says whether youtube-dl is
   * configured, `result` what youtube-dl answers for the song's page (`None`
   * when it throws), `fetched` how fetching the audio URL ends and
   * `contentType` the type the audio server gives. Everything that throws
   * after the youtube-dl check is caught as "Failed to fetch song info".
   */
  function Get(user: bool, id: Option<string>, songThrew: bool, song: Option<SongInfo>, pathSet: bool,
               result: Option<YtdlResult>, fetched: Fetched, contentType: Option<string>): (r: Response)
    ensures !user ==> r == Error(401, "Login to download songs")
    ensures user && !Given(id) ==> r == Error(400, "Missing id")
    ensures r.LookupThrew? <==> user && Given(id) && songThrew
    ensures user && Given(id) && !songThrew && (song.None? || !Given(song.value.videoId)) ==> r == Error(404, "Song not found")
    ensures r.Audio? ==> && user && Given(id) && !songThrew && song.Some? && Given(song.value.videoId) && pathSet && fetched.FetchOk?
                         && result.Some? && DownloadUrl(result.value) == Url(r.source)
                         && r.fileName == SafeName(song.value.name)
                         && r.contentType == (if Given(contentType) then contentType.value else "audio/mp4")
    ensures r.Error? ==> r.status in {401, 400, 404, 500}
    ensures r.Thrown? <==> user && Given(id) && !songThrew && song.Some? && Given(song.value.videoId) && !pathSet
    ensures r == Error(500, "Failed to fetch song info") <==>
      && user && Given(id) && !songThrew && song.Some? && Given(song.value.videoId) && pathSet
      && (result.None? || DownloadUrl(result.value) == TypeError || (DownloadUrl(result.value).Url? && fetched.FetchThrew?))
  {
    if !user then Error(401, "Login to download songs")
    else if !Given(id) then Error(400, "Missing id")
    else if songThrew then LookupThrew
    else if song.None? || !Given(song.value.videoId) then Error(404, "Song not found")
    else if !pathSet then Thrown("YOUTUBE_DL_PATH is not set")
    else if result.None? then Error(500, "Failed to fetch song info")
    else match DownloadUrl(result.value)
      case TypeError => Error(500, "Failed to fetch song info")
      case NoUrl => Error(500, "Failed to get download URL")
      case Url(url) =>
        match fetched
        case FetchThrew => Error(500, "Failed to fetch song info")
        case FetchNotOk => Error(500, "Failed to fetch audio stream")
        case FetchOk => Audio(url, if Given(contentType) then contentType.value else "audio/mp4", SafeName(song.value.name))
  }

  /** Without a login the answer is 401 whatever else the request holds. */
  lemma LoginFirst(id: Option<string>, songThrew: bool, song: Option<SongInfo>, pathSet: bool,
                   result: Option<YtdlResult>, fetched: Fetched, contentType: Option<string>)
    ensures Get(false, id, songThrew, song, pathSet, result, fetched, contentType).Error?
    ensures Get(false, id, songThrew, song, pathSet, result, fetched, contentType).status == 401
  {
  }
}
