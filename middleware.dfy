/**
 * The edge middleware (src/middleware.ts): which requests it runs on, and
 * whether it lets a request through or redirects it, from whether the request
 * carries a session and the path it asks for.
 */
module Middleware {
  import opened Text

  datatype Decision = Pass | Redirect(to: string)

  const Home: string := "/"
  const SignIn: string := "/auth/signin"

  predicate OnAuthPage(path: string) {
    StartsWith(path, "/auth")
  }

  /** `/` only as an exact match; the other public pages by prefix. */
  predicate OnPublicPage(path: string) {
    || path == "/"
    || StartsWith(path, "/landing")
    || StartsWith(path, "/api")
    || StartsWith(path, "/about")
    || StartsWith(path, "/privacy")
    || StartsWith(path, "/terms")
    || StartsWith(path, "/contact")
  }

  /** The middleware body: signed-in users leave the auth pages, signed-out users go to sign in. */
  function Decide(loggedIn: bool, path: string): (d: Decision)
    ensures d == Redirect(Home) <==> loggedIn && OnAuthPage(path)
    ensures d == Redirect(SignIn) <==> !loggedIn && !OnAuthPage(path) && !OnPublicPage(path)
    ensures d.Pass? <==> (loggedIn ==> !OnAuthPage(path)) && (!loggedIn ==> OnAuthPage(path) || OnPublicPage(path))
    ensures loggedIn ==> d != Redirect(SignIn)
    ensures !loggedIn ==> d != Redirect(Home)
  {
    if OnAuthPage(path) && loggedIn then Redirect(Home)
    else if !loggedIn && !OnAuthPage(path) && !OnPublicPage(path) then Redirect(SignIn)
    else Pass
  }

  /** A redirect target is let through on the next request: the middleware never loops. */
  lemma RedirectsSettle(loggedIn: bool, path: string)
    ensures Decide(loggedIn, path).Redirect? ==> Decide(loggedIn, Decide(loggedIn, path).to) == Pass
  {
    assert SignIn[..5] == "/auth";
  }

  /** Public pages other than `/` match by prefix, so a longer path is public too. */
  lemma PublicByPrefix(suffix: string)
    ensures OnPublicPage("/about" + suffix) && OnPublicPage("/contact" + suffix)
    ensures Decide(false, "/about" + suffix) == Pass
    ensures Decide(false, "/tasks" + suffix) == Redirect(SignIn)
  {
    assert ("/about" + suffix)[..6] == "/about";
    assert ("/contact" + suffix)[..8] == "/contact";
    assert ("/tasks" + suffix)[1] == 't' && ("/tasks" + suffix)[2] == 'a';
  }

  /** `favicon.ico` as a pattern: the `.` matches any one character. */
  predicate FaviconPattern(s: string) {
    |s| >= 11 && s[..7] == "favicon" && s[8..11] == "ico"
  }

  /** The `matcher`: the middleware runs on every path except those under the four excluded prefixes. */
  predicate MatcherRuns(path: string) {
    && path != ""
    && path[0] == '/'
    && !StartsWith(path[1..], "api")
    && !StartsWith(path[1..], "_next/static")
    && !StartsWith(path[1..], "_next/image")
    && !FaviconPattern(path[1..])
  }

  /** A request as the framework handles it: the middleware's decision where the matcher runs it. */
  function Handle(loggedIn: bool, path: string): (d: Decision)
    ensures !MatcherRuns(path) ==> d == Pass
    ensures MatcherRuns(path) ==> d == Decide(loggedIn, path)
    ensures StartsWith(path, "/api") ==> d == Pass
  {
    assert StartsWith(path, "/api") ==> path[1..][..3] == "api";
    if MatcherRuns(path) then Decide(loggedIn, path) else Pass
  }
}
