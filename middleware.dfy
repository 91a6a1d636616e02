/**
 * The route guard that runs before every page request: signed-in users are
 * sent away from the sign-in pages, signed-out users are sent from the
 * application pages to the login page with the page they wanted as
 * `callbackUrl`. Reading the session cookie is an input that either yields
 * the cookie (or none) or fails.
 */
module Middleware {
  import opened Wrappers
  import opened Text

  const AuthRoutes: seq<string> := ["/login", "/signup", "/email-login"]
  const ProtectedRoutes: seq<string> := ["/", "/dashboard", "/leads", "/campaigns", "/profile", "/settings"]

  /** The outcome of reading the session cookie. */
  datatype SessionCookie = ReadFailed | Read(cookie: Option<string>)

  /** What the guard answers. */
  datatype Decision = Next | Redirect(path: string, callbackUrl: Option<string>)

  /** `!!sessionCookie`: a cookie that is present and not empty. */
  predicate IsLoggedIn(cookie: Option<string>) {
    cookie.Some? && cookie.value != ""
  }

  predicate IsAuthRoute(pathname: string) {
    pathname in AuthRoutes
  }

  /** The path is a listed route or lies below one. */
  predicate IsProtectedRoute(pathname: string) {
    exists i :: 0 <= i < |ProtectedRoutes| &&
      (pathname == ProtectedRoutes[i] || IsPrefix(ProtectedRoutes[i] + "/", pathname))
  }

  /** The test on the error path: the path merely starts with a listed route. */
  predicate StartsWithProtectedRoute(pathname: string) {
    exists i :: 0 <= i < |ProtectedRoutes| && IsPrefix(ProtectedRoutes[i], pathname)
  }

  /** Where a signed-out visitor of a protected page is sent; the home page carries no callback. */
  function LoginRedirect(pathname: string): (d: Decision)
    ensures d.Redirect? && d.path == "/login"
    ensures d.callbackUrl.None? <==> pathname == "/"
    ensures d.callbackUrl.Some? ==> d.callbackUrl.value == pathname
  {
    Redirect("/login", if pathname != "/" then Some(pathname) else None)
  }

  /** The guard's decision, as written. */
  function Decide(pathname: string, session: SessionCookie): (d: Decision)
    ensures session.Read? && IsLoggedIn(session.cookie) && IsAuthRoute(pathname) ==> d == Redirect("/", None)
    ensures session.Read? && !IsLoggedIn(session.cookie) && IsProtectedRoute(pathname) ==> d == LoginRedirect(pathname)
    ensures session.ReadFailed? ==> d == if StartsWithProtectedRoute(pathname) then Redirect("/login", None) else Next
    ensures d.Redirect? <==>
      if session.ReadFailed? then StartsWithProtectedRoute(pathname)
      else if IsLoggedIn(session.cookie) then IsAuthRoute(pathname)
      else IsProtectedRoute(pathname)
  {
    match session
    case ReadFailed =>
      if StartsWithProtectedRoute(pathname) then Redirect("/login", None) else Next
    case Read(cookie) =>
      var isLoggedIn := IsLoggedIn(cookie);
      if isLoggedIn && IsAuthRoute(pathname) then Redirect("/", None)
      else if !isLoggedIn && IsProtectedRoute(pathname) then LoginRedirect(pathname)
      else Next
  }

  /** `route + "/"` and `pathname` differ at position `k`, so `route` covers neither `pathname` nor anything below it. */
  predicate MissesAt(route: string, pathname: string, k: nat) {
    k < |route| + 1 && k < |pathname| && (route + "/")[k] != pathname[k]
  }

  lemma NotCoveredByMismatch(pathname: string, ks: seq<nat>)
    requires |ks| == |ProtectedRoutes|
    requires MissesAt(ProtectedRoutes[0], pathname, ks[0]) && MissesAt(ProtectedRoutes[1], pathname, ks[1])
    requires MissesAt(ProtectedRoutes[2], pathname, ks[2]) && MissesAt(ProtectedRoutes[3], pathname, ks[3])
    requires MissesAt(ProtectedRoutes[4], pathname, ks[4]) && MissesAt(ProtectedRoutes[5], pathname, ks[5])
    ensures !IsProtectedRoute(pathname)
  {
    forall i | 0 <= i < |ProtectedRoutes|
      ensures pathname != ProtectedRoutes[i] && !IsPrefix(ProtectedRoutes[i] + "/", pathname)
    {
      var route, k := ProtectedRoutes[i], ks[i];
      assert MissesAt(route, pathname, k) by {
        if i == 0 {} else if i == 1 {} else if i == 2 {} else if i == 3 {} else if i == 4 {} else {}
      }
    }
  }

  /** A listed route protects its sub-paths, but not paths that merely share its letters. */
  lemma ProtectedRouteExamples()
    ensures IsProtectedRoute("/leads/1")
    ensures !IsProtectedRoute("/leadsx")
    ensures !IsProtectedRoute("/messages")
  {
    assert ProtectedRoutes[2] + "/" == "/leads/";
    assert IsPrefix("/leads/", "/leads/1");
    NotCoveredByMismatch("/leadsx", [1, 1, 6, 1, 1, 1]);
    NotCoveredByMismatch("/messages", [1, 1, 1, 1, 1, 1]);
  }

  /** The sign-in pages are not protected, so at most one redirect rule applies. */
  lemma NoAuthRouteIsProtected(pathname: string)
    requires IsAuthRoute(pathname)
    ensures !IsProtectedRoute(pathname)
  {
    if pathname == "/login" {
      NotCoveredByMismatch(pathname, [1, 1, 2, 1, 1, 1]);
    } else if pathname == "/signup" {
      NotCoveredByMismatch(pathname, [1, 1, 1, 1, 1, 2]);
    } else {
      NotCoveredByMismatch(pathname, [1, 1, 1, 1, 1, 1]);
    }
  }

  /** With a readable cookie, following a redirect leads to a page the guard lets through. */
  lemma {:induction false} RedirectsSettle(pathname: string, cookie: Option<string>)
    requires Decide(pathname, Read(cookie)).Redirect?
    ensures Decide(Decide(pathname, Read(cookie)).path, Read(cookie)) == Next
  {
    NoAuthRouteIsProtected("/login");
    assert IsPrefix(ProtectedRoutes[0], "/");
    assert !IsProtectedRoute("/login") && IsProtectedRoute("/");
  }

  /** When the cookie cannot be read, every path that starts with "/" is sent to the login page. */
  lemma ErrorPathRedirectsEveryPath(pathname: string)
    requires |pathname| > 0 && pathname[0] == '/'
    ensures Decide(pathname, ReadFailed) == Redirect("/login", None)
  {
    assert IsPrefix(ProtectedRoutes[0], pathname);
  }

  /** When the cookie cannot be read, the login page redirects to itself. */
  lemma ErrorPathLoopsOnLogin()
    ensures Decide("/login", ReadFailed) == Redirect("/login", None)
  {
    ErrorPathRedirectsEveryPath("/login");
  }

  /** The error path as its comment describes it: only protected routes go to the login page. */
  function DecideIntended(pathname: string, session: SessionCookie): (d: Decision)
    ensures session.Read? ==> d == Decide(pathname, session)
    ensures session.ReadFailed? ==> (d.Redirect? <==> IsProtectedRoute(pathname))
    ensures d.Redirect? && session.ReadFailed? ==> d == Redirect("/login", None)
  {
    match session
    case ReadFailed =>
      if IsProtectedRoute(pathname) then Redirect("/login", None) else Next
    case Read(_) => Decide(pathname, session)
  }

  /** With the intended error path, following a redirect always reaches a page the guard lets through. */
  lemma {:induction false} IntendedRedirectsSettle(pathname: string, session: SessionCookie)
    requires DecideIntended(pathname, session).Redirect?
    ensures DecideIntended(DecideIntended(pathname, session).path, session) == Next
  {
    match session
    case ReadFailed =>
      NoAuthRouteIsProtected("/login");
    case Read(cookie) =>
      RedirectsSettle(pathname, cookie);
  }

  // ---------------------------------------------------------------------------
  // Which requests reach the guard
  // ---------------------------------------------------------------------------

  const SkippedPrefixes: seq<string> := ["api", "_next/static", "_next/image", "favicon.ico"]
  const SkippedExtensions: seq<string> := [".svg", ".png", ".jpg", ".jpeg", ".gif", ".webp"]

  predicate IsSuffix(suffix: string, s: string) {
    |suffix| <= |s| && s[|s| - |suffix|..] == suffix
  }

  /**
   * The route matcher: a path starting with "/" whose remainder starts with
   * none of the skipped prefixes and that ends in none of the image extensions.
   */
  predicate Matched(pathname: string) {
    && |pathname| > 0 && pathname[0] == '/'
    && (forall i :: 0 <= i < |SkippedPrefixes| ==> !IsPrefix(SkippedPrefixes[i], pathname[1..]))
    && (forall i :: 0 <= i < |SkippedExtensions| ==> !IsSuffix(SkippedExtensions[i], pathname))
  }

  /** The middleware: requests the matcher skips pass untouched. */
  function Middleware(pathname: string, session: SessionCookie): (d: Decision)
    ensures !Matched(pathname) ==> d == Next
    ensures Matched(pathname) ==> d == Decide(pathname, session)
  {
    if Matched(pathname) then Decide(pathname, session) else Next
  }

  /** Assets and API calls never reach the guard, even when the cookie cannot be read. */
  lemma SkippedRequestsPass()
    ensures Middleware("/api/leads", ReadFailed) == Next
    ensures Middleware("/logo.svg", ReadFailed) == Next
  {
    assert IsPrefix(SkippedPrefixes[0], "/api/leads"[1..]);
    assert IsSuffix(SkippedExtensions[0], "/logo.svg");
  }
}
