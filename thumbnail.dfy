/**
 * Proxied thumbnail URLs (src/lib/stores/thumbnail.ts) and the two regular
 * expressions that strip YouTube Music size suffixes from a thumbnail URL.
 *
 * A proxied URL is represented by its query parameters in order; the path is
 * always `/api/thumbnail` and the parameters are serialised by the browser's
 * `URLSearchParams`, whose percent-encoding is not part of this model.
 */
module Thumbnail {
  import opened Wrappers
  import opened Text

  // ---------------------------------------------------------------------
  // Size-suffix patterns
  // ---------------------------------------------------------------------

  /** The two global regular expressions of the application. */
  datatype Pattern =
    | Narrow  // `/=w\d+-h\d+-l\d+-rj/g`, used by getThumbnailUrl
    | Wide    // `/=w\d+-h\d+(-[a-z](\d+)?)*-rj/g`, used by enhanceSong

  /** Length of the leading run of decimal digits. */
  function DigitRun(s: string): (n: nat)
    ensures n <= |s|
  {
    if s != [] && IsDigit(s[0]) then 1 + DigitRun(s[1..]) else 0
  }

  /** The digit run is all digits, and it stops at a non-digit or at the end. */
  lemma {:induction false} DigitRunDigits(s: string)
    ensures AllDigits(s[..DigitRun(s)])
    ensures DigitRun(s) < |s| ==> !IsDigit(s[DigitRun(s)])
  {
    if s != [] && IsDigit(s[0]) {
      var n := DigitRun(s);
      DigitRunDigits(s[1..]);
      assert s[..n] == [s[0]] + s[1..][..n - 1];
      if n < |s| {
        assert s[n] == s[1..][n - 1];
      }
    }
  }

  /**
   * The length of a match of `\d+` followed by the literal `lit` at the start
   * of `s`. `\d+` takes the whole digit run: every literal that follows a
   * `\d+` here starts with '-', so a shorter run never leads to a match.
   */
  function DigitsThen(s: string, lit: string): (r: Option<nat>)
    ensures r.Some? ==> |lit| < r.value <= |s|
  {
    var n := DigitRun(s);
    if n > 0 && StartsWith(s[n..], lit) then Some(n + |lit|) else None
  }

  /** The match of `=w\d+-h\d+-l\d+-rj` at the start of `s`. */
  function MatchNarrow(s: string): (r: Option<nat>)
    ensures r.Some? ==> 2 < r.value <= |s|
  {
    if !StartsWith(s, "=w") then None
    else match DigitsThen(s[2..], "-h")
      case None => None
      case Some(a) =>
        match DigitsThen(s[2 + a..], "-l")
        case None => None
        case Some(b) =>
          match DigitsThen(s[2 + a + b..], "-rj")
          case None => None
          case Some(c) => Some(2 + a + b + c)
  }

  /**
   * The tail `(-[a-z](\d+)?)*-rj` of the wide pattern. The groups are taken
   * greedily; the match ends at the group "-r" that is followed by 'j', since
   * that 'j' also ends the repetition.
   */
  function MatchGroups(s: string): (r: Option<nat>)
    ensures r.Some? ==> 3 <= r.value <= |s|
    decreases |s|
  {
    if |s| >= 2 && s[0] == '-' && IsAsciiLower(s[1]) then
      var d := DigitRun(s[2..]);
      if s[1] == 'r' && d == 0 && |s| >= 3 && s[2] == 'j' then Some(3)
      else
        match MatchGroups(s[2 + d..])
        case Some(k) => Some(2 + d + k)
        case None => None
    else None
  }

  /** The match of `=w\d+-h\d+(-[a-z](\d+)?)*-rj` at the start of `s`. */
  function MatchWide(s: string): (r: Option<nat>)
    ensures r.Some? ==> 2 < r.value <= |s|
  {
    if !StartsWith(s, "=w") then None
    else match DigitsThen(s[2..], "-h")
      case None => None
      case Some(a) =>
        var n := DigitRun(s[2 + a..]);
        if n == 0 then None
        else
          match MatchGroups(s[2 + a + n..])
          case None => None
          case Some(g) => Some(2 + a + n + g)
  }

  /** The length of the match of `p` at the start of `s`, if any. */
  function MatchAt(p: Pattern, s: string): (r: Option<nat>)
    ensures r.Some? ==> 1 <= r.value <= |s|
  {
    match p
    case Narrow => MatchNarrow(s)
    case Wide => MatchWide(s)
  }

  /** `s.replace(p, "")` with the global flag: left to right, matches do not overlap. */
  function RemoveAll(p: Pattern, s: string): (r: string)
    ensures |r| <= |s|
    decreases |s|
  {
    if s == [] then []
    else match MatchAt(p, s)
      case Some(k) => RemoveAll(p, s[k..])
      case None => [s[0]] + RemoveAll(p, s[1..])
  }

  /** The match of `p` at position `i` of `s`, if any. */
  function MatchFrom(p: Pattern, s: string, i: nat): Option<nat>
    requires i <= |s|
  {
    MatchAt(p, s[i..])
  }

  /** No match of `p` starts anywhere in `s`. */
  predicate NoMatch(p: Pattern, s: string) {
    forall i :: 0 <= i < |s| ==> MatchFrom(p, s, i).None?
  }

  /** A string without matches has none at its start and none in its tail. */
  lemma NoMatchTail(p: Pattern, s: string)
    requires NoMatch(p, s) && s != []
    ensures MatchAt(p, s).None? && NoMatch(p, s[1..])
  {
    assert MatchFrom(p, s, 0).None?;
    assert s[0..] == s;
    forall i | 0 <= i < |s| - 1 ensures MatchFrom(p, s[1..], i).None? {
      assert MatchFrom(p, s, i + 1).None?;
      assert s[1..][i..] == s[i + 1..];
    }
  }

  /** Removing the matches of a pattern from a string without matches changes nothing. */
  lemma {:induction false} RemoveAllNoMatch(p: Pattern, s: string)
    requires NoMatch(p, s)
    ensures RemoveAll(p, s) == s
  {
    if s != [] {
      NoMatchTail(p, s);
      RemoveAllNoMatch(p, s[1..]);
      assert [s[0]] + s[1..] == s;
    }
  }

  // ---------------------------------------------------------------------
  // Facts about the client pattern used by the round trip
  // ---------------------------------------------------------------------

  /** Every character of a `\d+lit` match is a digit or a character of `lit`. */
  lemma DigitsThenAlphabet(s: string, lit: string, j: nat)
    requires DigitsThen(s, lit).Some? && j < DigitsThen(s, lit).value
    ensures IsDigit(s[j]) || s[j] in lit
  {
    var n := DigitRun(s);
    DigitRunDigits(s);
    if j < n {
      assert s[..n][j] == s[j];
    } else {
      assert s[n..][..|lit|][j - n] == s[j];
    }
  }

  /** Strings that agree up to just past a digit run have the same digit run. */
  lemma {:induction false} DigitRunPrefix(s: string, t: string, n: nat)
    requires n == DigitRun(s) && n < |s| && n < |t| && t[..n + 1] == s[..n + 1]
    ensures DigitRun(t) == n
    decreases n
  {
    if n > 0 {
      assert s[0] == t[0];
      assert s[..n][0] == s[0];
      assert t[1..][..n] == s[1..][..n];
      DigitRunPrefix(s[1..], t[1..], n - 1);
    } else {
      assert t[0] == s[0];
    }
  }

  /** A `\d+lit` match depends only on the matched characters when `lit` starts with a non-digit. */
  lemma DigitsThenPrefix(s: string, t: string, lit: string)
    requires |lit| > 0 && !IsDigit(lit[0])
    requires DigitsThen(s, lit).Some?
    requires DigitsThen(s, lit).value <= |t| && t[..DigitsThen(s, lit).value] == s[..DigitsThen(s, lit).value]
    ensures DigitsThen(t, lit) == DigitsThen(s, lit)
  {
    var k := DigitsThen(s, lit).value;
    var n := DigitRun(s);
    assert s[n..][0] == lit[0];
    assert t[..n + 1] == s[..n + 1] by {
      assert t[..n + 1] == t[..k][..n + 1];
      assert s[..n + 1] == s[..k][..n + 1];
    }
    DigitRunPrefix(s, t, n);
    assert t[n..][..|lit|] == s[n..][..|lit|] by {
      assert t[n..][..|lit|] == t[..k][n..];
      assert s[n..][..|lit|] == s[..k][n..];
    }
  }

  /** The client pattern matches a string made of its four parts. */
  lemma NarrowOf(s: string, a: nat, b: nat, c: nat)
    requires StartsWith(s, "=w")
    requires 2 <= |s| && DigitsThen(s[2..], "-h") == Some(a)
    requires 2 + a <= |s| && DigitsThen(s[2 + a..], "-l") == Some(b)
    requires 2 + a + b <= |s| && DigitsThen(s[2 + a + b..], "-rj") == Some(c)
    ensures MatchNarrow(s) == Some(2 + a + b + c)
  {
  }

  /** Two strings that agree on their first `k` characters agree on every slice inside them. */
  lemma SlicePrefix(s: string, t: string, k: nat, i: nat, j: nat)
    requires k <= |s| && k <= |t| && t[..k] == s[..k] && i <= j <= k
    ensures t[i..][..j - i] == s[i..][..j - i]
  {
    assert t[i..][..j - i] == t[..k][i..j];
    assert s[i..][..j - i] == s[..k][i..j];
  }

  /** A match of the client pattern depends only on the matched characters. */
  lemma NarrowDependsOnPrefix(s: string, t: string)
    requires MatchNarrow(s).Some?
    requires MatchNarrow(s).value <= |t| && t[..MatchNarrow(s).value] == s[..MatchNarrow(s).value]
    ensures MatchNarrow(t) == MatchNarrow(s)
  {
    var k := MatchNarrow(s).value;
    var a := DigitsThen(s[2..], "-h").value;
    var b := DigitsThen(s[2 + a..], "-l").value;
    var c := DigitsThen(s[2 + a + b..], "-rj").value;
    SlicePrefix(s, t, k, 0, 2);
    assert t[..2] == t[0..][..2] && s[..2] == s[0..][..2];
    SlicePrefix(s, t, k, 2, 2 + a);
    DigitsThenPrefix(s[2..], t[2..], "-h");
    SlicePrefix(s, t, k, 2 + a, 2 + a + b);
    DigitsThenPrefix(s[2 + a..], t[2 + a..], "-l");
    SlicePrefix(s, t, k, 2 + a + b, k);
    DigitsThenPrefix(s[2 + a + b..], t[2 + a + b..], "-rj");
    NarrowOf(t, a, b, c);
  }

  /** Inside a match of the client pattern, only the first character is '='. */
  lemma NarrowMatchHasOneEquals(s: string, j: nat)
    requires MatchNarrow(s).Some? && 0 < j < MatchNarrow(s).value
    ensures s[j] != '='
  {
    var a := DigitsThen(s[2..], "-h").value;
    var b := DigitsThen(s[2 + a..], "-l").value;
    if j == 1 {
      assert s[..2][1] == 'w';
    } else if j < 2 + a {
      DigitsThenAlphabet(s[2..], "-h", j - 2);
    } else if j < 2 + a + b {
      DigitsThenAlphabet(s[2 + a..], "-l", j - 2 - a);
    } else {
      DigitsThenAlphabet(s[2 + a + b..], "-rj", j - 2 - a - b);
    }
  }

  /** The digit run of a string of digits followed by a non-digit is the whole string of digits. */
  lemma {:induction false} DigitRunOf(d: string, rest: string)
    requires AllDigits(d)
    requires rest != [] && !IsDigit(rest[0])
    ensures DigitRun(d + rest) == |d|
    decreases |d|
  {
    if d != [] {
      assert (d + rest)[1..] == d[1..] + rest;
      DigitRunOf(d[1..], rest);
    } else {
      assert d + rest == rest;
    }
  }

  /** Digits followed by the literal match as `\d+lit`. */
  lemma DigitsThenOf(d: string, lit: string, rest: string)
    requires |d| > 0 && AllDigits(d) && |lit| > 0 && !IsDigit(lit[0])
    ensures DigitsThen(d + lit + rest, lit) == Some(|d| + |lit|)
  {
    assert d + lit + rest == d + (lit + rest);
    DigitRunOf(d, lit + rest);
    assert (d + (lit + rest))[|d|..] == lit + rest;
    assert (lit + rest)[..|lit|] == lit;
  }

  // ---------------------------------------------------------------------
  // The suffix the server appends, and the round trip
  // ---------------------------------------------------------------------

  /** The suffix `=w<w>-h<h>-l<q>-rj` built by the thumbnail route. */
  function SizeSuffixFor(w: string, h: string, q: string): string {
    "=w" + w + "-h" + h + "-l" + q + "-rj"
  }

  lemma SuffixShape(w: string, h: string, q: string)
    ensures var s := SizeSuffixFor(w, h, q);
      s[..2] == "=w" && s[2..] == w + "-h" + (h + "-l" + (q + "-rj"))
      && s[2 + |w| + 2..] == h + "-l" + (q + "-rj")
      && s[2 + |w| + 2 + |h| + 2..] == q + "-rj" + []
  {
  }

  lemma SuffixMatches(w: string, h: string, q: string)
    requires |w| > 0 && |h| > 0 && |q| > 0 && AllDigits(w) && AllDigits(h) && AllDigits(q)
    ensures MatchNarrow(SizeSuffixFor(w, h, q)) == Some(|SizeSuffixFor(w, h, q)|)
  {
    var s := SizeSuffixFor(w, h, q);
    SuffixShape(w, h, q);
    DigitsThenOf(w, "-h", h + "-l" + (q + "-rj"));
    DigitsThenOf(h, "-l", q + "-rj");
    DigitsThenOf(q, "-rj", []);
    NarrowOf(s, |w| + 2, |h| + 2, |q| + 3);
  }

  /**
   * No match of the client pattern starts inside a string without matches and
   * runs on into a following match: it would have to cross that match's '='.
   */
  lemma NoMatchAcross(url: string, b: string)
    requires url != [] && MatchAt(Narrow, url).None?
    requires MatchNarrow(b) == Some(|b|)
    ensures MatchNarrow(url + b).None?
  {
    var s := url + b;
    assert s[|url|] == b[0] == b[..2][0] == '=';
    if MatchNarrow(s).Some? {
      var k := MatchNarrow(s).value;
      if k <= |url| {
        assert url[..k] == s[..k];
        NarrowDependsOnPrefix(s, url);
      } else {
        NarrowMatchHasOneEquals(s, |url|);
      }
    }
  }

  /** One whole match strips to nothing. */
  lemma WholeMatchStrips(b: string)
    requires MatchNarrow(b) == Some(|b|)
    ensures RemoveAll(Narrow, b) == []
  {
    assert b[|b|..] == [];
  }

  /** Where no match starts, the first character is kept. */
  lemma RemoveAllKeeps(p: Pattern, s: string)
    requires s != [] && MatchAt(p, s).None?
    ensures RemoveAll(p, s) == [s[0]] + RemoveAll(p, s[1..])
  {
  }

  lemma ConsAppend(u: string, b: string)
    requires u != []
    ensures (u + b)[0] == u[0] && (u + b)[1..] == u[1..] + b && [u[0]] + u[1..] == u
  {
    assert (u + b)[1..] == u[1..] + b;
    assert [u[0]] + u[1..] == u;
  }

  /** A string with no match of its own, followed by one whole match, strips to itself. */
  lemma {:induction false} StripWholeMatch(url: string, b: string)
    requires NoMatch(Narrow, url)
    requires MatchNarrow(b) == Some(|b|)
    ensures RemoveAll(Narrow, url + b) == url
    decreases |url|
  {
    if url == [] {
      assert url + b == b;
      WholeMatchStrips(b);
    } else {
      NoMatchTail(Narrow, url);
      NoMatchAcross(url, b);
      RemoveAllKeeps(Narrow, url + b);
      StripWholeMatch(url[1..], b);
      ConsAppend(url, b);
    }
  }

  /**
   * Appending the server's suffix to a URL with no suffix of its own and
   * stripping with the client pattern gives the URL back.
   */
  lemma StripServerSuffix(url: string, w: string, h: string, q: string)
    requires NoMatch(Narrow, url)
    requires |w| > 0 && |h| > 0 && |q| > 0 && AllDigits(w) && AllDigits(h) && AllDigits(q)
    ensures RemoveAll(Narrow, url + SizeSuffixFor(w, h, q)) == url
  {
    SuffixMatches(w, h, q);
    StripWholeMatch(url, SizeSuffixFor(w, h, q));
  }

  // ---------------------------------------------------------------------
  // getThumbnailUrl and friends
  // ---------------------------------------------------------------------

  /** A query parameter `name=value`. */
  datatype Param = Param(name: string, value: string)

  /** The result of the URL builders: "" or `/api/thumbnail?<params>`. */
  datatype ProxyUrl = Empty | Proxy(query: seq<Param>)

  /** `{ width?, height?, quality? }`. */
  datatype ThumbnailOptions = ThumbnailOptions(width: Option<int>, height: Option<int>, quality: Option<int>)

  const NoOptions := ThumbnailOptions(None, None, None)

  /** JavaScript truthiness of an optional number: present and not 0. */
  predicate Truthy(n: Option<int>) { n.Some? && n.value != 0 }

  /** `params.set(name, String(n))` when `n` is truthy. */
  function OptionalParam(name: string, n: Option<int>): seq<Param> {
    if Truthy(n) then [Param(name, IntToString(n.value))] else []
  }

  /** `getThumbnailUrl(originalUrl, options)`. */
  function GetThumbnailUrl(originalUrl: string, options: ThumbnailOptions): ProxyUrl {
    if originalUrl == "" then Empty
    else
      Proxy([Param("url", RemoveAll(Narrow, originalUrl))]
            + OptionalParam("w", options.width)
            + OptionalParam("h", options.height)
            + OptionalParam("q", options.quality))
  }

  /** The URL builder's contract: the cleaned url first, then w, h, q exactly when truthy. */
  lemma GetThumbnailUrlShape(originalUrl: string, options: ThumbnailOptions)
    ensures originalUrl == "" <==> GetThumbnailUrl(originalUrl, options) == Empty
    ensures originalUrl != "" ==>
      var q := GetThumbnailUrl(originalUrl, options).query;
      && q[0] == Param("url", RemoveAll(Narrow, originalUrl))
      && |q| == 1 + (if Truthy(options.width) then 1 else 0) + (if Truthy(options.height) then 1 else 0)
                  + (if Truthy(options.quality) then 1 else 0)
      && (Param("w", IntToString(options.width.GetOr(0))) in q <==> Truthy(options.width))
      && (Param("h", IntToString(options.height.GetOr(0))) in q <==> Truthy(options.height))
      && (Param("q", IntToString(options.quality.GetOr(0))) in q <==> Truthy(options.quality))
  {
  }

  /** The parameters always come in the order url, w, h, q. */
  lemma GetThumbnailUrlOrder(originalUrl: string, options: ThumbnailOptions)
    requires originalUrl != ""
    ensures var q := GetThumbnailUrl(originalUrl, options).query;
      forall i, j :: 0 <= i < j < |q| ==> Rank(q[i].name) < Rank(q[j].name)
  {
  }

  /** Position of a parameter name in the order url, w, h, q. */
  function Rank(name: string): nat {
    if name == "url" then 0 else if name == "w" then 1 else if name == "h" then 2 else 3
  }

  /** The presets of THUMBNAIL_SIZES. */
  datatype Preset = Small | Medium | Large | XLarge | Full

  /** The default preset of the `...WithSize` helpers. */
  const DefaultPreset := Medium

  /** THUMBNAIL_SIZES[size] as (width, height). */
  function PresetSize(size: Preset): (Option<int>, Option<int>) {
    match size
    case Small => (Some(60), Some(60))
    case Medium => (Some(120), Some(120))
    case Large => (Some(240), Some(240))
    case XLarge => (Some(480), Some(480))
    case Full => (None, None)
  }

  /** `getThumbnailUrlWithSize(originalUrl, size)`. */
  function GetThumbnailUrlWithSize(originalUrl: string, size: Preset): ProxyUrl {
    var (w, h) := PresetSize(size);
    GetThumbnailUrl(originalUrl, ThumbnailOptions(w, h, None))
  }

  /** A preset sets both w and h to its side length, except FULL which sets neither; no preset sets q. */
  lemma PresetParams(originalUrl: string, size: Preset)
    requires originalUrl != ""
    ensures var q := GetThumbnailUrlWithSize(originalUrl, size).query;
      && (size == Full ==> q == [Param("url", RemoveAll(Narrow, originalUrl))])
      && (size == DefaultPreset ==>
            q == [Param("url", RemoveAll(Narrow, originalUrl)), Param("w", "120"), Param("h", "120")])
      && (forall p :: p in q ==> p.name != "q")
  {
    Render120();
  }

  lemma Render120()
    ensures IntToString(120) == "120"
  {
    assert NatToString(12) == "12";
  }

  /** A thumbnail record of the metadata provider. */
  datatype ThumbnailInfo = ThumbnailInfo(url: string, width: int, height: int)

  /** `getSongThumbnail(thumbnails, options)`: "" without thumbnails, else from the first one. */
  function GetSongThumbnail(thumbnails: Option<seq<ThumbnailInfo>>, options: ThumbnailOptions): (r: ProxyUrl)
    ensures thumbnails.None? || thumbnails.value == [] ==> r == Empty
  {
    if thumbnails.None? || |thumbnails.value| == 0 then Empty
    else GetThumbnailUrl(thumbnails.value[0].url, options)
  }

  /** `getSongThumbnailWithSize(thumbnails, size)`. */
  function GetSongThumbnailWithSize(thumbnails: Option<seq<ThumbnailInfo>>, size: Preset): (r: ProxyUrl)
    ensures thumbnails.None? || thumbnails.value == [] ==> r == Empty
  {
    if thumbnails.None? || |thumbnails.value| == 0 then Empty
    else GetThumbnailUrlWithSize(thumbnails.value[0].url, size)
  }

  /** Only the first thumbnail matters: the rest of the list never changes the result. */
  lemma SongThumbnailUsesFirst(first: ThumbnailInfo, rest1: seq<ThumbnailInfo>, rest2: seq<ThumbnailInfo>,
                                options: ThumbnailOptions, size: Preset)
    ensures GetSongThumbnail(Some([first] + rest1), options) == GetSongThumbnail(Some([first] + rest2), options)
                                                            == GetThumbnailUrl(first.url, options)
    ensures GetSongThumbnailWithSize(Some([first] + rest1), size) == GetSongThumbnailWithSize(Some([first] + rest2), size)
                                                                == GetThumbnailUrlWithSize(first.url, size)
  {
  }

  /** The settings store `thumbnailStore`. */
  class ThumbnailStore {
    var defaultQuality: int
    var cacheEnabled: bool

    constructor ()
      ensures defaultQuality == 90 && cacheEnabled
    {
      defaultQuality := 90;
      cacheEnabled := true;
    }

    method SetDefaultQuality(quality: int)
      modifies this
      ensures defaultQuality == quality && cacheEnabled == old(cacheEnabled)
    {
      defaultQuality := quality;
    }

    method ToggleCache()
      modifies this
      ensures cacheEnabled == !old(cacheEnabled) && defaultQuality == old(defaultQuality)
    {
      cacheEnabled := !cacheEnabled;
    }
  }
}
