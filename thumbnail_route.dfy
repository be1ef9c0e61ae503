/**
 * The thumbnail proxy route (src/routes/api/thumbnail/+server.ts): it reads
 * `url`, `w`, `h` and `q` from the query and answers with a redirect to the
 * CDN URL, with the size suffix appended when a size was asked for.
 */
module ThumbnailRoute {
  import opened Wrappers
  import opened Text
  import opened Thumbnail

  /** The two answers of the route. */
  datatype Response =
    | BadRequest(message: string)
    | Redirect(location: string, cacheControl: string)
  {
    function Status(): int {
      if BadRequest? then 400 else 302
    }
  }

  const CacheForever := "public, max-age=31536000, immutable"

  /** A query parameter is truthy when present and not empty. */
  predicate Given(p: Option<string>) {
    p.Some? && p.value != ""
  }

  /** `p || fallback`. */
  function OrElse(p: Option<string>, fallback: string): (r: string)
    ensures Given(p) ==> r == p.value
    ensures !Given(p) ==> r == fallback
  {
    if Given(p) then p.value else fallback
  }

  /** `GET`, given the query's `url`, `w`, `h` and `q`. */
  function Get(url: Option<string>, w: Option<string>, h: Option<string>, q: Option<string>): (r: Response)
    ensures r.Status() == 400 <==> !Given(url)
    ensures r.Redirect? ==> r.Status() == 302 && r.cacheControl == CacheForever
    ensures Given(url) && !Given(w) && !Given(h) ==> r == Redirect(url.value, CacheForever)
    ensures Given(url) && (Given(w) || Given(h)) ==>
      r.Redirect? && r.location == url.value + SizeSuffixFor(OrElse(w, "0"), OrElse(h, "0"), OrElse(q, "90"))
  {
    if !Given(url) then BadRequest("Missing thumbnail URL")
    else if Given(w) || Given(h) then
      Redirect(url.value + SizeSuffixFor(OrElse(w, "0"), OrElse(h, "0"), OrElse(q, "90")), CacheForever)
    else Redirect(url.value, CacheForever)
  }

  /** Without a size, `q` makes no difference. */
  lemma QualityAloneIgnored(url: Option<string>, q: Option<string>)
    ensures Get(url, None, None, q) == Get(url, None, None, None)
  {
  }

  /** A parameter given as digits, or absent and then defaulted to digits. */
  predicate DigitsOrAbsent(p: Option<string>) {
    !Given(p) || AllDigits(p.value)
  }

  /**
   * Stripping the redirect target with the client's pattern gives back the
   * URL the client sent, when that URL carries no size suffix of its own and
   * the size parameters are digits.
   */
  lemma RedirectStrips(url: string, w: Option<string>, h: Option<string>, q: Option<string>)
    requires url != "" && NoMatch(Narrow, url)
    requires DigitsOrAbsent(w) && DigitsOrAbsent(h) && DigitsOrAbsent(q)
    ensures Get(Some(url), w, h, q).Redirect?
    ensures RemoveAll(Narrow, Get(Some(url), w, h, q).location) == url
  {
    if Given(w) || Given(h) {
      StripServerSuffix(url, OrElse(w, "0"), OrElse(h, "0"), OrElse(q, "90"));
    } else {
      RemoveAllNoMatch(Narrow, url);
    }
  }

  /** `url.searchParams.get(name)`: the first parameter with that name. */
  function GetParam(query: seq<Param>, name: string): (r: Option<string>)
    ensures r.Some? <==> exists i :: 0 <= i < |query| && query[i].name == name
  {
    if query == [] then None
    else if query[0].name == name then Some(query[0].value)
    else
      var rest := GetParam(query[1..], name);
      assert forall i :: 0 < i < |query| ==> query[i] == query[1..][i - 1];
      rest
  }

  /** The route applied to the query of a URL built by `getThumbnailUrl`. */
  function Serve(p: ProxyUrl): (r: Option<Response>)
    ensures r.Some? <==> p.Proxy?
  {
    match p
    case Empty => None
    case Proxy(query) =>
      Some(Get(GetParam(query, "url"), GetParam(query, "w"), GetParam(query, "h"), GetParam(query, "q")))
  }

  /** What the route reads for a parameter the client set with `OptionalParam`. */
  function ReadBack(n: Option<int>): Option<string> {
    if Truthy(n) then Some(IntToString(n.value)) else None
  }

  /** A non-negative size read back is absent or digits. */
  lemma ReadBackDigits(n: Option<int>)
    requires n.None? || n.value >= 0
    ensures DigitsOrAbsent(ReadBack(n))
    ensures Given(ReadBack(n)) <==> Truthy(n)
  {
  }

  /** The route reads back an optional parameter in front of ones with other names. */
  lemma ReadOptional(name: string, n: Option<int>, rest: seq<Param>)
    requires GetParam(rest, name).None?
    ensures GetParam(OptionalParam(name, n) + rest, name) == ReadBack(n)
  {
    if Truthy(n) {
      assert (OptionalParam(name, n) + rest)[0].name == name;
    } else {
      assert OptionalParam(name, n) + rest == rest;
    }
  }

  /** An optional parameter with another name does not hide the one looked up. */
  lemma SkipOptional(name: string, other: string, n: Option<int>, rest: seq<Param>)
    requires name != other
    ensures GetParam(OptionalParam(other, n) + rest, name) == GetParam(rest, name)
  {
    if Truthy(n) {
      assert (OptionalParam(other, n) + rest)[1..] == rest;
    } else {
      assert OptionalParam(other, n) + rest == rest;
    }
  }

  /** The route finds each parameter the client set, and nothing for one it left out. */
  lemma ClientQueryReads(originalUrl: string, options: ThumbnailOptions)
    ensures var query := [Param("url", originalUrl)] + OptionalParam("w", options.width)
        + OptionalParam("h", options.height) + OptionalParam("q", options.quality);
      && GetParam(query, "url") == Some(originalUrl)
      && GetParam(query, "w") == ReadBack(options.width)
      && GetParam(query, "h") == ReadBack(options.height)
      && GetParam(query, "q") == ReadBack(options.quality)
  {
    var wp, hp, qp := OptionalParam("w", options.width), OptionalParam("h", options.height),
                      OptionalParam("q", options.quality);
    var tail := wp + (hp + (qp + []));
    var query := [Param("url", originalUrl)] + tail;
    assert query == [Param("url", originalUrl)] + wp + hp + qp;
    assert query[1..] == tail;
    ReadOptional("q", options.quality, []);
    SkipOptional("q", "h", options.height, qp + []);
    SkipOptional("q", "w", options.width, hp + (qp + []));
    SkipOptional("h", "q", options.quality, []);
    ReadOptional("h", options.height, qp + []);
    SkipOptional("h", "w", options.width, hp + (qp + []));
    SkipOptional("w", "q", options.quality, []);
    SkipOptional("w", "h", options.height, qp + []);
    ReadOptional("w", options.width, hp + (qp + []));
  }

  /**
   * End to end: for a suffix-free URL and non-negative sizes, the client's
   * proxied URL makes the route redirect to a CDN URL which, stripped of its
   * suffix by the client pattern, is the original URL; without a width or
   * height the redirect goes to the original URL itself.
   */
  lemma ProxyRoundTrip(originalUrl: string, options: ThumbnailOptions)
    requires originalUrl != "" && NoMatch(Narrow, originalUrl)
    requires options.width.None? || options.width.value >= 0
    requires options.height.None? || options.height.value >= 0
    requires options.quality.None? || options.quality.value >= 0
    ensures var r := Serve(GetThumbnailUrl(originalUrl, options));
      && r.Some? && r.value.Redirect?
      && RemoveAll(Narrow, r.value.location) == originalUrl
      && (!Truthy(options.width) && !Truthy(options.height) ==> r.value.location == originalUrl)
  {
    RemoveAllNoMatch(Narrow, originalUrl);
    ClientQueryReads(originalUrl, options);
    ReadBackDigits(options.width);
    ReadBackDigits(options.height);
    ReadBackDigits(options.quality);
    var w, h, q := ReadBack(options.width), ReadBack(options.height), ReadBack(options.quality);
    assert Serve(GetThumbnailUrl(originalUrl, options)) == Some(Get(Some(originalUrl), w, h, q));
    RedirectStrips(originalUrl, w, h, q);
  }
}
