/**
 * The server hooks (src/hooks.server.ts): a request without an access token
 * but with a refresh token is sent to refresh first; otherwise the request's
 * locals are filled in, the user from the "user" cookie and the shared
 * database, and then the YouTube Music client.
 */
module Hooks {
  import opened Wrappers
  import opened Schema

  const RefreshPath := "/auth/refresh"

  /** A cookie is truthy when present and not empty. */
  predicate Given(cookie: Option<string>) {
    cookie.Some? && cookie.value != ""
  }

  /**
   * What a hook does with the request: redirect it, pass it on, or fail it
   * with the error a hook threw.
   */
  datatype HookOutcome = Redirect(status: int, location: string) | PassThrough | Rejected

  /** `handleRefreshHook`, given the two token cookies and the path asked for. */
  function HandleRefresh(accessToken: Option<string>, refreshToken: Option<string>, path: string): (r: HookOutcome)
    ensures r.Redirect? <==> !Given(accessToken) && Given(refreshToken) && path != RefreshPath
    ensures r.Redirect? ==> r == Redirect(307, RefreshPath)
  {
    if !Given(accessToken) && Given(refreshToken) && path != RefreshPath then Redirect(307, RefreshPath)
    else PassThrough
  }

  /**
   * The refresh page itself is never redirected, so following the redirect
   * does not redirect again.
   */
  lemma NoRedirectLoop(accessToken: Option<string>, refreshToken: Option<string>, path: string)
    ensures HandleRefresh(accessToken, refreshToken, RefreshPath) == PassThrough
    ensures HandleRefresh(accessToken, refreshToken, path).Redirect? ==>
      HandleRefresh(accessToken, refreshToken, HandleRefresh(accessToken, refreshToken, path).location) == PassThrough
  {
  }

  /** The three hooks of `sequence`. */
  datatype Hook = RefreshHook | LocalsHook | YTMusicHook

  /** `event.locals` of one request, and the hooks that ran on it. */
  class Locals {
    var user: Option<UserData>
    var hasDb: bool
    var hasYTMusic: bool
    var ran: seq<Hook>

    constructor ()
      ensures user.None? && !hasDb && !hasYTMusic && ran == []
    {
      user := None;
      hasDb := false;
      hasYTMusic := false;
      ran := [];
    }

    /**
     * `setLocalsHook`: `decoded` is what verifying the "user" cookie gives.
     * The user is set only when the cookie is there; the database always.
     */
    method SetLocals(userCookie: Option<string>, decoded: Option<UserData>)
      modifies this
      ensures Given(userCookie) ==> user == decoded
      ensures !Given(userCookie) ==> user == old(user)
      ensures hasDb && hasYTMusic == old(hasYTMusic)
      ensures ran == old(ran) + [LocalsHook]
    {
      if userCookie.Some? && userCookie.value != "" {
        user := decoded;
      }
      hasDb := true;
      ran := ran + [LocalsHook];
    }

    /**
     * `handleYTMusicAPI`: a client for the request once `initialize` succeeds
     * (`initOk`); when it throws, no client is set and the hook fails.
     */
    method SetYTMusic(initOk: bool) returns (ok: bool)
      modifies this
      ensures ok == initOk
      ensures hasYTMusic == (initOk || old(hasYTMusic))
      ensures user == old(user) && hasDb == old(hasDb)
      ensures ran == old(ran) + [YTMusicHook]
    {
      ran := ran + [YTMusicHook];
      if !initOk {
        return false;
      }
      hasYTMusic := true;
      return true;
    }

    /**
     * `handle`: the three hooks in order; a redirect from the first stops the
     * chain before anything is set, and a client that fails to initialise
     * (`initOk` false) fails the request after the locals are set.
     */
    method Handle(accessToken: Option<string>, refreshToken: Option<string>, path: string,
                  userCookie: Option<string>, decoded: Option<UserData>, initOk: bool) returns (r: HookOutcome)
      modifies this
      ensures r.Redirect? <==> HandleRefresh(accessToken, refreshToken, path).Redirect?
      ensures r.Redirect? ==>
        && r == HandleRefresh(accessToken, refreshToken, path)
        && ran == old(ran) + [RefreshHook] && user == old(user) && hasDb == old(hasDb) && hasYTMusic == old(hasYTMusic)
      ensures r == Rejected <==> !r.Redirect? && !initOk
      ensures !r.Redirect? ==>
        && ran == old(ran) + [RefreshHook, LocalsHook, YTMusicHook]
        && hasDb && hasYTMusic == (initOk || old(hasYTMusic))
        && user == (if Given(userCookie) then decoded else old(user))
    {
      ran := ran + [RefreshHook];
      r := HandleRefresh(accessToken, refreshToken, path);
      if r.Redirect? {
        return;
      }
      SetLocals(userCookie, decoded);
      var ok := SetYTMusic(initOk);
      if !ok {
        r := Rejected;
      }
    }
  }
}
