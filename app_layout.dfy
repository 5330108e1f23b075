/**
 * The client layout that wraps every page (src/components/layout/AppLayout.tsx):
 * its own list of public routes, the redirect it pushes, when it loads the
 * store, and which of four renderings it chooses.
 */
module AppLayout {
  import opened Wrappers
  import opened Text
  import opened Middleware
  import Schema
  import Store

  const PublicRoutes: seq<string> := ["/auth/signin", "/landing", "/about", "/privacy", "/terms"]
  const Landing: string := "/landing"

  /** `pathname?.replace(/\/$/, "") || "/"`: one trailing `/` dropped, and an empty result is `/`. */
  function NormalizedPath(pathname: Option<string>): (r: string)
    ensures r != ""
    ensures pathname.None? ==> r == "/"
    ensures pathname.Some? && pathname.value != "" && pathname.value[|pathname.value| - 1] != '/' ==> r == pathname.value
    ensures pathname.Some? && |pathname.value| >= 2 && pathname.value[|pathname.value| - 1] == '/' ==>
              r == pathname.value[..|pathname.value| - 1]
    ensures pathname == Some("/") || pathname == Some("") ==> r == "/"
  {
    match pathname
    case None => "/"
    case Some(p) =>
      var stripped := if p != "" && p[|p| - 1] == '/' then p[..|p| - 1] else p;
      if stripped == "" then "/" else stripped
  }

  /** A trailing slash does not change the route; a second one is kept. */
  lemma TrailingSlashIgnored(p: string)
    requires p != "" && p[|p| - 1] != '/'
    ensures NormalizedPath(Some(p + "/")) == NormalizedPath(Some(p)) == p
    ensures NormalizedPath(Some(p + "//")) == p + "/"
  {
    assert (p + "/")[..|p|] == p;
    assert (p + "//")[..|p| + 1] == p + "/";
  }

  /** `publicRoutes.includes(normalizedPath)`: an exact match, unlike the middleware's prefixes. */
  predicate IsPublicRoute(pathname: Option<string>) {
    NormalizedPath(pathname) in PublicRoutes
  }

  datatype AuthStatus = Loading | Authenticated | Unauthenticated

  /** The spinner, the page alone, nothing, or the page inside the sidebar and bottom navigation. */
  datatype View = Spinner | Bare | Blank | Framed

  /** The render branch, in the order the component tests its conditions. */
  function Render(status: AuthStatus, hasSession: bool, pathname: Option<string>): (v: View)
    ensures v == Spinner <==> status == Loading
    ensures v == Bare <==> status != Loading && IsPublicRoute(pathname)
    ensures v == Blank <==> status != Loading && !IsPublicRoute(pathname) && !hasSession
    ensures v == Framed ==> hasSession && !IsPublicRoute(pathname)
  {
    if status == Loading then Spinner
    else if IsPublicRoute(pathname) then Bare
    else if !hasSession then Blank
    else Framed
  }

  /**
   * The first effect: an authenticated session loads the store with
   * bootstrapData; any other status leaves the store as it was.
   */
  method BootstrapEffect(status: AuthStatus, store: Store.AppStore, taskResponse: Store.FetchResult<Schema.Task>,
                         goalResponse: Store.FetchResult<Schema.Goal>,
                         watchlistResponse: Store.FetchResult<Schema.WatchlistItem>)
    modifies store`tasks, store`goals, store`watchlist, store`loading
    ensures status == Authenticated ==>
              && store.tasks == Store.AfterFetch(old(store.tasks), taskResponse)
              && store.goals == Store.AfterFetch(old(store.goals), goalResponse)
              && store.watchlist == Store.AfterFetch(old(store.watchlist), watchlistResponse)
    ensures status != Authenticated ==>
              && store.tasks == old(store.tasks) && store.goals == old(store.goals)
              && store.watchlist == old(store.watchlist) && store.loading == old(store.loading)
  {
    if status == Authenticated {
      store.Bootstrap(taskResponse, goalResponse, watchlistResponse);
    }
  }

  /** The second effect: an unauthenticated visitor to a non-public route is pushed to `/landing`. */
  function PushTarget(status: AuthStatus, pathname: Option<string>): (r: Option<string>)
    ensures r.Some? <==> status == Unauthenticated && !IsPublicRoute(pathname)
    ensures r.Some? ==> r.value == Landing
  {
    if status == Unauthenticated && !IsPublicRoute(pathname) then Some(Landing) else None
  }

  /** The push target is itself public, so the push does not repeat. */
  lemma PushSettles(status: AuthStatus, pathname: Option<string>)
    ensures PushTarget(status, pathname).Some? ==> PushTarget(status, PushTarget(status, pathname)).None?
  {
    assert NormalizedPath(Some(Landing)) == Landing;
  }

  /** Every route the layout treats as public is one the middleware lets a signed-out visitor reach. */
  lemma LayoutPublicPassesMiddleware(route: string)
    requires route in PublicRoutes
    ensures Decide(false, route) == Pass
  {
    assert SignIn[..5] == "/auth";
  }

  /**
   * `/contact` is public to the middleware but missing from the layout's list:
   * a signed-out visitor gets through the middleware and is then pushed to `/landing`.
   */
  lemma ContactPushedToLanding()
    ensures Decide(false, "/contact") == Pass
    ensures PushTarget(Unauthenticated, Some("/contact")) == Some(Landing)
    ensures Render(Unauthenticated, false, Some("/contact")) == Blank
  {
    assert NormalizedPath(Some("/contact")) == "/contact";
    assert "/contact"[..8] == "/contact";
  }
}
