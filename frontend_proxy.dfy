/**
 * The page guard of the web client (frontend/src/proxy.ts): a request for a
 * protected page that carries no `token` cookie is redirected to the sign-in
 * page, which is told where the visitor came from; every other request goes
 * on. The token is never checked here; the backend checks it.
 */
module FrontendProxy {
  import opened Wrappers
  import opened Strings

  /** The path prefixes the guard protects. */
  const ProtectedPaths: seq<string> := ["/reserve", "/bookings", "/profile", "/dashboard", "/admin"]

  /** What the guard answers: a redirect to `target` with query parameter `from`, or the request goes on. */
  datatype Response = Redirect(target: string, from: string) | PassThrough

  /** `protectedPaths.some(path => pathname.startsWith(path))`. */
  predicate IsProtected(pathname: string) {
    exists i :: 0 <= i < |ProtectedPaths| && StartsWith(pathname, ProtectedPaths[i])
  }

  /** `!token`: the cookie is missing or its value is the empty string. */
  predicate NoToken(token: Option<string>) {
    token.None? || token.value == ""
  }

  /** `proxy(request)`: the cookie value is `token`, the requested path `pathname`. */
  function Proxy(token: Option<string>, pathname: string): (r: Response)
    ensures r.Redirect? <==>
      NoToken(token)
      && (StartsWith(pathname, "/reserve") || StartsWith(pathname, "/bookings") || StartsWith(pathname, "/profile")
          || StartsWith(pathname, "/dashboard") || StartsWith(pathname, "/admin"))
    ensures r.Redirect? ==> r.target == "/sign-in" && r.from == pathname
  {
    assert IsProtected(pathname) <==>
      StartsWith(pathname, ProtectedPaths[0]) || StartsWith(pathname, ProtectedPaths[1])
      || StartsWith(pathname, ProtectedPaths[2]) || StartsWith(pathname, ProtectedPaths[3])
      || StartsWith(pathname, ProtectedPaths[4]);
    if IsProtected(pathname) && NoToken(token) then Redirect("/sign-in", pathname) else PassThrough
  }

  /** Any non-empty token lets every path through: its value is never looked at. */
  lemma TokenNeverInspected(a: string, b: string, pathname: string)
    requires a != "" && b != ""
    ensures Proxy(Some(a), pathname) == Proxy(Some(b), pathname) == PassThrough
  {
  }

  /** Prefix matching protects more than the five sections: "/reserved" counts as protected. */
  lemma ReservedIsProtected()
    ensures Proxy(None, "/reserved") == Redirect("/sign-in", "/reserved")
  {
    assert StartsWith("/reserved", "/reserve");
  }

  /**
   * The route matcher the guard is registered with: `/reserve/:path*` and the
   * like match a section itself and every path below it, and nothing else.
   */
  predicate InMatcher(pathname: string) {
    exists i :: 0 <= i < |ProtectedPaths| && (pathname == ProtectedPaths[i] || StartsWith(pathname, ProtectedPaths[i] + "/"))
  }

  /** What a request meets: the guard only runs for paths the matcher selects. */
  function Guarded(token: Option<string>, pathname: string): (r: Response)
    ensures r.Redirect? <==> NoToken(token) && InMatcher(pathname)
    ensures r.Redirect? ==> r == Proxy(token, pathname)
  {
    if InMatcher(pathname) then
      var i :| 0 <= i < |ProtectedPaths| && (pathname == ProtectedPaths[i] || StartsWith(pathname, ProtectedPaths[i] + "/"));
      assert StartsWith(pathname, ProtectedPaths[i]);
      Proxy(token, pathname)
    else PassThrough
  }

  /** Every page of a protected section is guarded: without a token the visitor goes to sign-in. */
  lemma SectionPagesRedirect(i: int, rest: string)
    requires 0 <= i < |ProtectedPaths|
    ensures Guarded(None, ProtectedPaths[i] + "/" + rest) == Redirect("/sign-in", ProtectedPaths[i] + "/" + rest)
  {
    var p := ProtectedPaths[i] + "/" + rest;
    assert StartsWith(p, ProtectedPaths[i] + "/") by {
      assert p[..|ProtectedPaths[i] + "/"|] == ProtectedPaths[i] + "/";
    }
  }

  /** The matcher keeps the guard off "/reserved", which the guard alone would protect. */
  lemma MatcherExcludesReserved()
    ensures !InMatcher("/reserved")
    ensures Guarded(None, "/reserved") == PassThrough
  {
    assert !StartsWith("/reserved", "/reserve/") by { assert "/reserved"[8] != '/'; }
    assert !StartsWith("/reserved", "/bookings/") by { assert "/reserved"[1] != 'b'; }
    assert !StartsWith("/reserved", "/profile/") by { assert "/reserved"[1] != 'p'; }
    assert !StartsWith("/reserved", "/dashboard/") by { assert "/reserved"[1] != 'd'; }
    assert !StartsWith("/reserved", "/admin/") by { assert "/reserved"[1] != 'a'; }
  }
}
