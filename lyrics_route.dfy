/**
 * The lyrics route (src/routes/api/lyrics/+server.ts): the lines YouTube
 * Music has for a song, joined into one text. The lines are a parameter.
 */
module LyricsRoute {
  import opened Wrappers
  import opened Text

  /** The answers of `GET`. */
  datatype Response =
    | Error(status: int, message: string)
    | Thrown
    | Lyrics(text: string)

  predicate Given(p: Option<string>) {
    p.Some? && p.value != ""
  }

  /**
   * `GET` for the caller (if logged in), the query's `songID` and what
   * `getLyrics` gives: `None` when it throws (nothing catches it, so the
   * request fails with SvelteKit's 500), else the lines found, if any.
   */
  function Get(user: bool, songId: Option<string>, lines: Option<Option<seq<string>>>): (r: Response)
    ensures !user ==> r == Error(401, "Unauthorized")
    ensures user && !Given(songId) ==> r == Error(400, "Missing songID")
    ensures r.Thrown? <==> user && Given(songId) && lines.None?
    ensures user && Given(songId) && lines == Some(None) ==> r == Error(404, "Lyrics not found")
    ensures r.Lyrics? <==> user && Given(songId) && lines.Some? && lines.value.Some?
  {
    if !user then Error(401, "Unauthorized")
    else if !Given(songId) then Error(400, "Missing songID")
    else match lines
      case None => Thrown
      case Some(None) => Error(404, "Lyrics not found")
      case Some(Some(found)) => Lyrics(Join(found, "\n"))
  }

  /** The text splits back into the lines found, when there is at least one and none holds a line break. */
  lemma LyricsRoundTrip(songId: string, lines: seq<string>)
    requires songId != "" && lines != []
    requires forall k :: 0 <= k < |lines| ==> '\n' !in lines[k]
    ensures Get(true, Some(songId), Some(Some(lines))).Lyrics?
    ensures Split(Get(true, Some(songId), Some(Some(lines))).text, '\n') == lines
  {
    SplitJoin(lines, '\n');
  }

  /** An empty list of lines is found, and is the empty text, which splits into one empty line. */
  lemma NoLinesIsEmptyText(songId: string)
    requires songId != ""
    ensures Get(true, Some(songId), Some(Some([]))) == Lyrics("")
    ensures Split(Get(true, Some(songId), Some(Some([]))).text, '\n') == [""]
  {
  }
}
