/** The router's navigation decisions: the global `beforeEach` guard (the
    browser restriction, the page title, the language reload when crossing
    the login boundary, the authentication redirects and the keep-alive page
    cache), the per-route `beforeEnter` guards that follow feature flags, the
    root redirect and the choice of landing page component.

    The guard is a decision: it returns where navigation goes next together
    with the effects it asks for (title, language reload, cache change), and
    the caller performs them. */
module Router {
  import opened Wrappers
  import opened Strings
  import opened Request

  /** A route's `meta`: the title's translation key ("" when there is none),
      and the `requiresAuth` and `keepAlive` flags as configured. */
  datatype RouteMeta = RouteMeta(titleKey: string, requiresAuth: Flag, keepAlive: Flag)

  /** A resolved route; `name` is "" for an unnamed route. */
  datatype Route = Route(name: string, path: string, meta: RouteMeta)

  const LoginRoute := Route("Login", "/login", RouteMeta("common.login", Bool(false), Undefined))
  const DashboardRoute := Route("Dashboard", "/dashboard", RouteMeta("menu.dashboard", Bool(true), Bool(true)))
  const BrowserRestrictedRoute :=
    Route("BrowserRestricted", "/browser-restricted", RouteMeta("errors.browserRestricted", Bool(false), Undefined))
  const LandingRoute := Route("Landing", "/landing", RouteMeta("landing.mainText", Bool(false), Undefined))

  /** Where the guard sends navigation. */
  datatype Next = Proceed | ToBrowserRestricted | ToLogin | ToDashboard

  /** The route a redirect resolves to. */
  function Target(next: Next): (r: Route)
    requires next != Proceed
  {
    match next
    case ToBrowserRestricted => BrowserRestrictedRoute
    case ToLogin => LoginRoute
    case ToDashboard => DashboardRoute
  }

  /** What the guard asks of the keep-alive page cache. */
  datatype CacheEffect = NoCacheChange | AddToCache(name: string) | RemoveFromCache(name: string)

  /** The guard's decision and the effects it asks for: the document title
      to set, the language to reload, and the page-cache change. */
  datatype GuardOutcome = GuardOutcome(next: Next, title: Option<string>, reloadLanguage: Option<string>, cache: CacheEffect)

  /** `setPageTitle`: the translated title followed by the site name, or the
      site name alone when there is no key or no real translation. */
  function PageTitle(titleKey: string, translate: string -> string, siteName: string): (title: string)
    ensures titleKey != "" && translate(titleKey) != "" && translate(titleKey) != titleKey ==>
      title == translate(titleKey) + " - " + siteName
    ensures !(titleKey != "" && translate(titleKey) != "" && translate(titleKey) != titleKey) ==> title == siteName
    ensures |title| >= |siteName| && title[|title| - |siteName|..] == siteName
  {
    if titleKey != "" && translate(titleKey) != "" && translate(titleKey) != titleKey
    then
      var title := translate(titleKey) + " - " + siteName;
      assert title[|title| - |siteName|..] == siteName;
      title
    else siteName
  }

  /** The page-cache change for a route that is entered. */
  function CacheEffectFor(to: Route): (e: CacheEffect)
    ensures e.AddToCache? <==> to.meta.keepAlive.Truthy() && to.name != ""
    ensures e.RemoveFromCache? <==> to.meta.keepAlive.IsFalse() && to.name != ""
    ensures e != NoCacheChange ==> e.name == to.name
  {
    if to.meta.keepAlive.Truthy() && to.name != "" then AddToCache(to.name)
    else if to.name != "" && to.meta.keepAlive.IsFalse() then RemoveFromCache(to.name)
    else NoCacheChange
  }

  /** The global `beforeEach` guard. `token` is the stored login token (""
      when absent), `restricted` the browser check, `language` the stored
      language setting. */
  function BeforeEach(
    to: Route, from: Route, token: string, restricted: bool,
    translate: string -> string, siteName: string, language: string): (o: GuardOutcome)
    // the browser restriction comes before everything, with no effect at all
    ensures restricted && to.name != "BrowserRestricted" ==>
      o == GuardOutcome(ToBrowserRestricted, None, None, NoCacheChange)
    ensures !(restricted && to.name != "BrowserRestricted") ==>
      && o.title == Some(PageTitle(to.meta.titleKey, translate, siteName))
      && (o.reloadLanguage.Some? <==> from.meta.requiresAuth.Truthy() != to.meta.requiresAuth.Truthy())
      && (o.reloadLanguage.Some? ==> o.reloadLanguage.value == CurrentLanguage(language))
      && (o.next == ToLogin <==> to.meta.requiresAuth.Truthy() && token == "")
      && (o.next == ToDashboard <==> !(to.meta.requiresAuth.Truthy() && token == "") && to.path == "/login" && token != "")
      && o.next != ToBrowserRestricted
      && o.cache == if o.next == Proceed then CacheEffectFor(to) else NoCacheChange
  {
    if restricted && to.name != "BrowserRestricted" then
      GuardOutcome(ToBrowserRestricted, None, None, NoCacheChange)
    else
      var title := PageTitle(to.meta.titleKey, translate, siteName);
      var crossed := (from.meta.requiresAuth.Truthy() && !to.meta.requiresAuth.Truthy())
                     || (!from.meta.requiresAuth.Truthy() && to.meta.requiresAuth.Truthy());
      var reload := if crossed then Some(CurrentLanguage(language)) else None;
      if to.meta.requiresAuth.Truthy() && token == "" then
        GuardOutcome(ToLogin, Some(title), reload, NoCacheChange)
      else if to.path == "/login" && token != "" then
        GuardOutcome(ToDashboard, Some(title), reload, NoCacheChange)
      else
        GuardOutcome(Proceed, Some(title), reload, CacheEffectFor(to))
  }

  /** No route that requires authentication is entered without a token. */
  lemma NoProtectedRouteWithoutToken(
    to: Route, from: Route, restricted: bool, translate: string -> string, siteName: string, language: string)
    requires to.meta.requiresAuth.Truthy()
    ensures BeforeEach(to, from, "", restricted, translate, siteName, language).next != Proceed
  {
  }

  /** Every redirect of the guard settles: navigating to the route it
      redirects to, with the same token and browser, proceeds. Route names
      are unique, so a route named like the restriction page is that page. */
  lemma RedirectsSettle(
    to: Route, from: Route, token: string, restricted: bool,
    translate: string -> string, siteName: string, language: string)
    requires to.name == BrowserRestrictedRoute.name ==> to == BrowserRestrictedRoute
    requires BeforeEach(to, from, token, restricted, translate, siteName, language).next != Proceed
    ensures
      var next := BeforeEach(to, from, token, restricted, translate, siteName, language).next;
      BeforeEach(Target(next), to, token, restricted, translate, siteName, language).next == Proceed
  {
    var next := BeforeEach(to, from, token, restricted, translate, siteName, language).next;
    var target := Target(next);
    assert target.name == "BrowserRestricted" || !restricted by {
      if next != ToBrowserRestricted {
        assert to.name != "BrowserRestricted";
      }
    }
    assert target.meta.requiresAuth.Truthy() ==> token != "";
    assert target.path == "/login" ==> token == "";
  }

  // ---------------------------------------------------------------------
  // Route-level redirects and components
  // ---------------------------------------------------------------------

  /** The redirect of the root path, by `DEFAULT_CONFIG.enableLandingPage`. */
  function RootRedirect(enableLandingPage: Flag): (path: string)
    ensures path == "/landing" <==> enableLandingPage.Truthy()
    ensures path == "/login" <==> !enableLandingPage.Truthy()
  {
    if enableLandingPage.Truthy() then "/landing" else "/login"
  }

  /** The landing route's `beforeEnter`: to the login page when landing is
      disabled (`Some` is a redirect, `None` lets navigation proceed). */
  function LandingGuard(enableLandingPage: Flag): (redirect: Option<string>)
    ensures redirect.None? <==> enableLandingPage.Truthy()
    ensures redirect.Some? ==> redirect.value == LoginRoute.path
  {
    if !enableLandingPage.Truthy() then Some("/login") else None
  }

  /** The root redirect never lands on a landing page that would bounce
      again: it ends at the login page or at a landing page that is open. */
  lemma RootRedirectSettles(enableLandingPage: Flag)
    ensures RootRedirect(enableLandingPage) == LandingRoute.path ==> LandingGuard(enableLandingPage).None?
    ensures RootRedirect(enableLandingPage) == LandingRoute.path || RootRedirect(enableLandingPage) == LoginRoute.path
  {
  }

  /** The traffic-log route's `beforeEnter`, by `TRAFFICLOG_CONFIG.enableTrafficLog`. */
  function TrafficLogGuard(enableTrafficLog: Flag): (redirect: Option<string>)
    ensures redirect.None? <==> enableTrafficLog.Truthy()
    ensures redirect.Some? ==> redirect.value == DashboardRoute.path
  {
    if !enableTrafficLog.Truthy() then Some("/dashboard") else None
  }

  /** The deposit route's `beforeEnter`: only the XiaoV2board backend has a
      wallet deposit page. */
  function DepositGuard(xiaoV2board: bool): (redirect: Option<string>)
    ensures redirect.None? <==> xiaoV2board
    ensures redirect.Some? ==> redirect.value == DashboardRoute.path
  {
    if !xiaoV2board then Some("/dashboard") else None
  }

  datatype LandingComponent = DefaultLandingPage | CustomLandingPage

  /** `getCustomOrDefaultLandingPage`, by `SITE_CONFIG.customLandingPage`. */
  function GetCustomOrDefaultLandingPage(customLandingPage: Flag): (c: LandingComponent)
    ensures c == CustomLandingPage <==> customLandingPage.Truthy()
  {
    if !customLandingPage.Truthy() then DefaultLandingPage else CustomLandingPage
  }
}
