/** The API base-URL availability checker: whether multi-URL checking
    applies, which URL the client uses, the silent check that probes the
    candidate base URLs and commits one to session storage, and the start-up
    entry point that either checks silently or sends the user to the
    validation page.

    The probes are not run: each candidate's fetch and XHR outcomes are
    given. The probes run concurrently in the source, but the winner is
    picked by index from the joined results, so a sequence in candidate
    order captures everything that decides it. */
module ApiAvailability {
  import opened Wrappers
  import opened Strings
  import opened CacheCodec

  /** `API_CONFIG.staticBaseUrl` (or `API_BASE_URLS`): absent, a single
      value, or an array. */
  datatype BaseUrls = NoUrls | OneUrl(url: string) | UrlList(urls: seq<string>)

  datatype ApiConfig = ApiConfig(urlMode: string, staticBaseUrl: BaseUrls)

  /** The parts of `window.EZ_CONFIG` the checker and the request
      interceptor read. `cacheDuration` is 0 when unset. */
  datatype EzConfig = EzConfig(
    middlewareEnabled: Flag,
    apiConfig: Option<ApiConfig>,
    cacheEnabled: Flag,
    cacheDuration: int,
    silentCheck: Flag,
    apiBaseUrls: BaseUrls)

  const AvailableUrlKey := "ez_api_available_url"
  const CacheDataKey := "ez_api_cache_data"
  const DefaultCacheDuration := 300000

  // ---------------------------------------------------------------------
  // Reading the configuration
  // ---------------------------------------------------------------------

  /** `shouldCheckApiAvailability` (`ez` is `None` when `window.EZ_CONFIG`
      is missing). */
  function ShouldCheckApiAvailability(ez: Option<EzConfig>): (check: bool)
    ensures check <==>
      && ez.Some?
      && !ez.value.middlewareEnabled.IsTrue()
      && ez.value.apiConfig.Some?
      && ez.value.apiConfig.value.urlMode == "static"
      && ez.value.apiConfig.value.staticBaseUrl.UrlList?
      && |ez.value.apiConfig.value.staticBaseUrl.urls| > 1
  {
    if ez.None? then false
    else if ez.value.middlewareEnabled.IsTrue() then false
    else
      match ez.value.apiConfig
      case None => false
      case Some(api) =>
        if api.urlMode != "static" then false
        else api.staticBaseUrl.UrlList? && |api.staticBaseUrl.urls| > 1
  }

  /** The candidate base URLs: the `staticBaseUrl` array, if there is one. */
  function StaticUrls(ez: Option<EzConfig>): (urls: seq<string>)
    ensures ShouldCheckApiAvailability(ez) ==> |urls| > 1
  {
    if ez.Some? && ez.value.apiConfig.Some? && ez.value.apiConfig.value.staticBaseUrl.UrlList?
    then ez.value.apiConfig.value.staticBaseUrl.urls
    else []
  }

  /** `sessionStorage.getItem(key)`, with a missing key read as "". */
  function Item(session: map<string, string>, key: string): string {
    if key in session then session[key] else ""
  }

  /** `getAvailableApiUrl`: without checking, the first static URL (or the
      single one, or "" when there is none); with checking, the URL stored in
      the session when there is one, otherwise the first static URL. */
  function GetAvailableApiUrl(ez: Option<EzConfig>, session: map<string, string>): (url: string)
    ensures ShouldCheckApiAvailability(ez) ==>
      url == if Item(session, AvailableUrlKey) != "" then Item(session, AvailableUrlKey) else StaticUrls(ez)[0]
    ensures !ShouldCheckApiAvailability(ez) && StaticUrls(ez) != [] ==> url == StaticUrls(ez)[0]
    ensures !ShouldCheckApiAvailability(ez) && ez.Some? && ez.value.apiConfig.Some?
            && ez.value.apiConfig.value.staticBaseUrl.OneUrl? ==>
      url == ez.value.apiConfig.value.staticBaseUrl.url
    ensures (!ShouldCheckApiAvailability(ez) && StaticUrls(ez) == []
             && !(ez.Some? && ez.value.apiConfig.Some? && ez.value.apiConfig.value.staticBaseUrl.OneUrl?)) ==>
      url == ""
  {
    if !ShouldCheckApiAvailability(ez) then
      if ez.Some? && ez.value.apiConfig.Some? then
        match ez.value.apiConfig.value.staticBaseUrl
        case NoUrls => ""
        case OneUrl(u) => u
        case UrlList(us) => if |us| > 0 then us[0] else ""
      else ""
    else
      var stored := Item(session, AvailableUrlKey);
      if stored != "" then stored else ez.value.apiConfig.value.staticBaseUrl.urls[0]
  }

  // ---------------------------------------------------------------------
  // Probes
  // ---------------------------------------------------------------------

  /** What the `fetch` probe of `${baseUrl}/guest/comm/config` observed: a
      status, a URL `new URL` rejects, or a thrown error (network failure or
      the abort fired by the timeout). */
  datatype FetchOutcome = FetchStatus(status: int) | InvalidUrl | FetchFailed

  /** What the XHR probe observed: `onload` with a status, `onerror`, or
      `ontimeout`. */
  datatype XhrOutcome = XhrStatus(status: int) | XhrError | XhrTimeout

  datatype Probe = Probe(fetch: FetchOutcome, xhr: XhrOutcome)

  /** The result of the enhanced probe, and whether it fell back to XHR. */
  datatype ProbeReport = ProbeReport(available: bool, xhrSent: bool)

  /** A response in [200, 500) shows the server is reachable: the 2xx, 3xx
      and 4xx status classes of section 15 of RFC 9110; 5xx is not. */
  predicate Reachable(status: int)
    ensures Reachable(status) <==> status >= 0 && 2 <= status / 100 <= 4
  {
    200 <= status < 500
  }

  /** `testApiEndpoint` */
  function TestApiEndpoint(o: FetchOutcome): (ok: bool)
    ensures ok <==> o.FetchStatus? && Reachable(o.status)
  {
    match o
    case FetchStatus(s) => Reachable(s)
    case InvalidUrl => false
    case FetchFailed => false
  }

  /** `testApiEndpointWithXHR` */
  function TestApiEndpointWithXhr(o: XhrOutcome): (ok: bool)
    ensures ok <==> o.XhrStatus? && Reachable(o.status)
  {
    match o
    case XhrStatus(s) => Reachable(s)
    case XhrError => false
    case XhrTimeout => false
  }

  /** `enhancedTestApiEndpoint`: fetch first, XHR only when fetch says no. */
  function EnhancedTestApiEndpoint(p: Probe): (r: ProbeReport)
    ensures r.available <==> TestApiEndpoint(p.fetch) || TestApiEndpointWithXhr(p.xhr)
    ensures r.xhrSent <==> !TestApiEndpoint(p.fetch)
  {
    if TestApiEndpoint(p.fetch) then ProbeReport(true, false)
    else ProbeReport(TestApiEndpointWithXhr(p.xhr), true)
  }

  /** `results.find(result => result.isAvailable)`, as an index. */
  function FirstAvailable(available: seq<bool>): (r: Option<nat>)
    ensures r.Some? ==> r.value < |available| && available[r.value]
    ensures r.Some? ==> forall j :: 0 <= j < r.value ==> !available[j]
    ensures r.None? ==> forall j :: 0 <= j < |available| ==> !available[j]
    decreases |available|
  {
    if |available| == 0 then None
    else if available[0] then Some(0)
    else match FirstAvailable(available[1..])
      case None => None
      case Some(i) => Some(i + 1)
  }

  // ---------------------------------------------------------------------
  // The time-boxed cache
  // ---------------------------------------------------------------------

  /** `API_CHECK_CACHE_DURATION || 300000` */
  function CacheDuration(ez: EzConfig): int {
    if ez.cacheDuration != 0 then ez.cacheDuration else DefaultCacheDuration
  }

  /** What the cache says before any probe: nothing, a fresh URL, or a text
      that cannot be parsed (which makes the check give up). */
  datatype CacheAnswer = NoAnswer | Unreadable | Hit(url: string)

  function CacheAnswerOf(ez: EzConfig, session: map<string, string>, now: int): (a: CacheAnswer)
    ensures a.Hit? <==>
      (&& ez.cacheEnabled.IsTrue()
       && DecodeCacheEntry(Item(session, CacheDataKey)).Some?
       && now - DecodeCacheEntry(Item(session, CacheDataKey)).value.timestamp < CacheDuration(ez))
    ensures a.Hit? ==> a.url == DecodeCacheEntry(Item(session, CacheDataKey)).value.url
    ensures a == Unreadable <==>
      (&& ez.cacheEnabled.IsTrue()
       && Item(session, CacheDataKey) != ""
       && DecodeCacheEntry(Item(session, CacheDataKey)).None?)
  {
    if !ez.cacheEnabled.IsTrue() || Item(session, CacheDataKey) == "" then NoAnswer
    else match DecodeCacheEntry(Item(session, CacheDataKey))
      case None => Unreadable
      case Some(e) => if now - e.timestamp < CacheDuration(ez) then Hit(e.url) else NoAnswer
  }

  /** The writes that commit `url` at time `timestamp`. */
  function Committed(ez: EzConfig, session: map<string, string>, url: string, timestamp: nat): (s: map<string, string>)
    ensures Item(s, AvailableUrlKey) == url
    ensures ez.cacheEnabled.IsTrue() ==> DecodeCacheEntry(Item(s, CacheDataKey)) == Some(CacheEntry(url, timestamp))
    ensures !ez.cacheEnabled.IsTrue() ==> s == session[AvailableUrlKey := url]
    ensures s.Keys == session.Keys + {AvailableUrlKey} + (if ez.cacheEnabled.IsTrue() then {CacheDataKey} else {})
    ensures forall k :: k in session && k != AvailableUrlKey && k != CacheDataKey ==> s[k] == session[k]
  {
    CacheEntryRoundTrip(CacheEntry(url, timestamp));
    var s := session[AvailableUrlKey := url];
    if ez.cacheEnabled.IsTrue() then s[CacheDataKey := EncodeCacheEntry(CacheEntry(url, timestamp))] else s
  }

  /** What `silentCheckApiAvailability` ends with: from the session and
      `_AVAILABLE_API_URL` before it (`session0`, `avail0`) to those after it
      (`session1`, `avail1`), its answer `r`, and the number `probed` of
      candidates probed. `now` is the clock when the cache is read, `later`
      when the winner is committed; `probes[i]` is what the probes of the
      i-th candidate observe. */
  ghost predicate SilentCheckOutcome(
    ez: Option<EzConfig>, now: int, later: nat, probes: seq<Probe>,
    session0: map<string, string>, avail0: Option<string>,
    r: Option<string>, probed: nat, session1: map<string, string>, avail1: Option<string>)
    requires |probes| == |StaticUrls(ez)|
  {
    && (!ShouldCheckApiAvailability(ez) ==>
          r == None && probed == 0 && session1 == session0 && avail1 == avail0)
    && (ShouldCheckApiAvailability(ez) && CacheAnswerOf(ez.value, session0, now) == Unreadable ==>
          r == None && probed == 0 && session1 == session0 && avail1 == avail0)
    && (ShouldCheckApiAvailability(ez) && CacheAnswerOf(ez.value, session0, now).Hit? ==>
          var url := CacheAnswerOf(ez.value, session0, now).url;
          r == Some(url) && probed == 0 && session1 == session0[AvailableUrlKey := url] && avail1 == avail0)
    && (ShouldCheckApiAvailability(ez) && CacheAnswerOf(ez.value, session0, now) == NoAnswer
        && Item(session0, AvailableUrlKey) != "" ==>
          r == Some(Item(session0, AvailableUrlKey)) && probed == 0 && session1 == session0 && avail1 == avail0)
    && (ShouldCheckApiAvailability(ez) && CacheAnswerOf(ez.value, session0, now) == NoAnswer
        && Item(session0, AvailableUrlKey) == "" ==>
          var urls := StaticUrls(ez);
          var found := FirstAvailable(seq(|probes|, i requires 0 <= i < |probes| => EnhancedTestApiEndpoint(probes[i]).available));
          && probed == |urls|
          && (found.Some? ==> r == Some(urls[found.value]) && avail1 == r)
          && (found.None? ==> r == Some(urls[0]) && avail1 == avail0)
          && session1 == Committed(ez.value, session0, r.value, later))
    && (r.Some? ==> Item(session1, AvailableUrlKey) == r.value)
    && (r.Some? && r.value != "" ==> GetAvailableApiUrl(ez, session1) == r.value)
  }

  // ---------------------------------------------------------------------
  // Browser state and the checks that change it
  // ---------------------------------------------------------------------

  datatype CurrentRoute = CurrentRoute(name: string, path: string, query: map<string, string>)

  datatype Navigation = Navigation(path: string, query: map<string, string>)

  /** `{ redirect: currentPath !== '/api-validation' ? currentPath : '/', ...currentQuery }`:
      a `redirect` already in the query wins over the computed one. */
  function RedirectQuery(currentPath: string, currentQuery: map<string, string>): (q: map<string, string>)
    ensures q.Keys == currentQuery.Keys + {"redirect"}
    ensures forall k :: k in currentQuery ==> q[k] == currentQuery[k]
    ensures "redirect" !in currentQuery ==> q["redirect"] == (if currentPath == "/api-validation" then "/" else currentPath)
  {
    map["redirect" := if currentPath != "/api-validation" then currentPath else "/"] + currentQuery
  }

  /** The browser state the checker touches: session storage and
      `window.EZ_CONFIG._AVAILABLE_API_URL`. */
  class Browser {
    var session: map<string, string>
    var availableApiUrl: Option<string>

    constructor (session: map<string, string>)
      ensures this.session == session && availableApiUrl == None
    {
      this.session := session;
      availableApiUrl := None;
    }

    /** `silentCheckApiAvailability`: gives up without checking or on an
        unreadable cache, answers from a fresh cache entry or the stored URL,
        and otherwise probes every candidate and commits the first available
        one (the first candidate when none answers). */
    method SilentCheckApiAvailability(ez: Option<EzConfig>, now: int, later: nat, probes: seq<Probe>)
      returns (r: Option<string>, probed: nat)
      requires |probes| == |StaticUrls(ez)|
      modifies this
      ensures SilentCheckOutcome(ez, now, later, probes, old(session), old(availableApiUrl), r, probed, session, availableApiUrl)
    {
      if !ShouldCheckApiAvailability(ez) {
        return None, 0;
      }
      var config := ez.value;
      if config.cacheEnabled.IsTrue() {
        var cached := Item(session, CacheDataKey);
        if cached != "" {
          var entry := DecodeCacheEntry(cached);
          if entry.None? {
            return None, 0;  // JSON.parse threw: caught, the check gives up
          }
          if now - entry.value.timestamp < CacheDuration(config) {
            session := session[AvailableUrlKey := entry.value.url];
            return Some(entry.value.url), 0;
          }
        }
      }
      var stored := Item(session, AvailableUrlKey);
      if stored != "" {
        return Some(stored), 0;
      }
      var urls := StaticUrls(ez);
      ghost var verdicts := seq(|probes|, i requires 0 <= i < |probes| => EnhancedTestApiEndpoint(probes[i]).available);
      var available: seq<bool> := [];
      for i := 0 to |urls|
        invariant available == verdicts[..i]
      {
        var report := EnhancedTestApiEndpoint(probes[i]);
        available := available + [report.available];
      }
      assert available == verdicts;
      probed := |urls|;
      var found := FirstAvailable(available);
      var winner := if found.Some? then urls[found.value] else urls[0];
      session := Committed(config, session, winner, later);
      if found.Some? {
        availableApiUrl := Some(winner);
      }
      r := Some(winner);
    }

    /** `initApiAvailabilityChecker`: nothing to do without checking; a
        stored URL is returned; with silent checking the check runs here;
        otherwise, when asked to redirect and not already there, the user is
        sent to the validation page with the way back in its query. */
    method InitApiAvailabilityChecker(
      ez: Option<EzConfig>, redirect: bool, route: CurrentRoute, now: int, later: nat, probes: seq<Probe>)
      returns (r: Option<string>, push: Option<Navigation>, probed: nat)
      requires |probes| == |StaticUrls(ez)|
      modifies this
      ensures !ShouldCheckApiAvailability(ez) ==>
        r == None && push == None && probed == 0 && session == old(session) && availableApiUrl == old(availableApiUrl)
      ensures ShouldCheckApiAvailability(ez) && Item(old(session), AvailableUrlKey) != "" ==>
        r == Some(Item(old(session), AvailableUrlKey)) && push == None && probed == 0
        && session == old(session) && availableApiUrl == old(availableApiUrl)
      ensures ShouldCheckApiAvailability(ez) && Item(old(session), AvailableUrlKey) == "" && ez.value.silentCheck.IsTrue() ==>
        push == None
        && SilentCheckOutcome(ez, now, later, probes, old(session), old(availableApiUrl), r, probed, session, availableApiUrl)
      ensures ShouldCheckApiAvailability(ez) && Item(old(session), AvailableUrlKey) == "" && !ez.value.silentCheck.IsTrue() ==>
        && r == None && probed == 0 && session == old(session) && availableApiUrl == old(availableApiUrl)
        && push == (if redirect && route.name != "ApiValidation"
                    then Some(Navigation("/api-validation", RedirectQuery(route.path, route.query)))
                    else None)
    {
      if !ShouldCheckApiAvailability(ez) {
        return None, None, 0;
      }
      var stored := Item(session, AvailableUrlKey);
      if stored != "" {
        return Some(stored), None, 0;
      }
      if ez.value.silentCheck.IsTrue() {
        r, probed := SilentCheckApiAvailability(ez, now, later, probes);
        return r, None, probed;
      }
      if redirect && route.name != "ApiValidation" {
        push := Some(Navigation("/api-validation", RedirectQuery(route.path, route.query)));
        return None, push, 0;
      }
      return None, None, 0;
    }
  }

  /** Two checks in a row, the clock not going backwards: once the first has
      answered with a URL, the second answers with the same URL and runs no
      probe. */
  method CheckTwice(
    b: Browser, ez: Option<EzConfig>, now: int, later: nat, probes: seq<Probe>,
    now2: int, later2: nat, probes2: seq<Probe>)
    returns (first: Option<string>, second: Option<string>, probed2: nat)
    requires |probes| == |StaticUrls(ez)| && |probes2| == |StaticUrls(ez)|
    requires now <= now2
    modifies b
    ensures first.Some? && first.value != "" ==> second == first && probed2 == 0
  {
    var probed1;
    first, probed1 := b.SilentCheckApiAvailability(ez, now, later, probes);
    second, probed2 := b.SilentCheckApiAvailability(ez, now2, later2, probes2);
  }
}
