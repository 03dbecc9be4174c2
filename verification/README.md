# EZ-Theme client core, modelled in Dafny

This project models the decision logic of the EZ-Theme front end, a Vue
client for V2board-family panels. The network, the clock, randomness and the
browser are replaced by parameters. What remains is stated as Dafny
functions, classes and methods, and the behaviour the code promises is proved
about them.

It covers four parts of the client:

- **Image upload** (`image_upload.dfy`, module `ImageUpload`): validation of
  the file, the WebDAV upload, and the per-provider adapters. The adapters
  cover ImgBB, SM.MS, Chevereto, Lsky Pro and a custom host, with their
  success rules and result records. It also models choosing and ordering the
  enabled image hosts, the failover loop over them, the Markdown image text,
  the generated file name, the HTTP Basic credentials text
  (section 2 of RFC 7617) and the configuration check.
- **API base-URL availability** (`api_availability.dfy`, module
  `ApiAvailability`; `cache_codec.dfy`, module `CacheCodec`):
  - whether multi-URL checking applies, and which base URL is in use;
  - the probe rule: statuses 200–499, that is the 2xx–4xx classes of
    section 15 of RFC 9110;
  - the silent check. It reuses a time-boxed cache entry, then a stored URL,
    and otherwise probes every candidate and commits the first reachable one
    in list order, falling back to the first URL;
  - the start-up entry point and its redirect to the validation page.

  Session storage and `window.EZ_CONFIG._AVAILABLE_API_URL` are the fields of
  the class `Browser`. The cache entry is the `JSON.stringify` text of
  `{url, timestamp}`, written and read back by `CacheCodec`.
- **Request interception** (`request.dfy`, module `Request`). The request
  interceptor is a method on a `RequestConfig` object that it updates in
  place. It handles:
  - the base URL;
  - the path mapping in middleware mode;
  - the POST-to-form conversion;
  - the `Authorization` token, taken from localStorage, then the cookie, then
    the window global, then the backup entry;
  - the custom headers.

  The module also models the response interceptor's logout on an expired
  session, and the error interceptor's messages (a method on a
  `RequestError` object). Those messages include the localisation table for
  backend messages.
- **Navigation guards** (`router.dfy`, module `Router`): the global
  `beforeEach` decision and the effects it asks for. Those effects are the
  title, the language reload and the keep-alive cache change. The module also
  covers the feature-flag `beforeEnter` guards, the root redirect and the
  choice of landing page component.

Shared helpers sit in `wrappers.dfy` (`Option`, `Result`) and `strings.dfy`,
module `Strings`. That module holds prefix and substring tests, decimal text
and its parser, `split`/`join`, the "first truthy string" of an `a || b || c`
chain, and the `Flag` type. `Flag` captures a configuration value's
JavaScript truthiness and its strict comparison with `true` and `false`.

Where the code only tests a string's truthiness, the empty string stands for
every falsy value: `''`, `null` and `undefined`. Where a missing value is
written into text by a template literal, it is an `Option` instead, and a
missing value reads "undefined", as the literal writes it. This applies to
the WebDAV `publicUrl` and to a provider's `data.url`. In the second case the
upload record holds that text where the source holds `undefined`; the
Markdown text built from it is the same.

## Model

| member | source | states |
|---|---|---|
| ImageUpload.Extension | src/utils/webdavUpload.js:21 | the extension has no dot, is a suffix of the name, and is preceded by a dot unless it is the whole name |
| ImageUpload.ExtensionAfterDot | src/utils/webdavUpload.js:21 | the extension of `prefix.ext` with a dot-free `ext` is `ext` |
| ImageUpload.UniqueFileName | src/utils/webdavUpload.js:18-23 | the generated name is exactly `timestamp_token.` followed by the original extension: that prefix, that extension, and nothing between them |
| ImageUpload.CredentialsRoundTrip | src/utils/webdavUpload.js:43 | the `user:password` credentials text gives back user and password when the user id has no colon |
| ImageUpload.ConvertToMarkdown | src/utils/webdavUpload.js:680-683 | the text is `![alt](url)`, with '图片' when the alt text is empty; the URL sits unescaped just before the closing parenthesis, whatever the alt text holds |
| ImageUpload.MarkdownRoundTrip | src/utils/webdavUpload.js:680-683 | the Markdown text gives back alt text and URL when the alt text has no `]` |
| ImageUpload.ProviderOf | src/utils/webdavUpload.js:238-252 | each of imgbb, smms, chevereto and lsky goes to its own adapter, and every other host type to the custom adapter |
| ImageUpload.CustomImageUrl | src/utils/webdavUpload.js:577-598 | the custom host's URL is the first truthy one of `url`, `data.url`, `link`, `src` |
| ImageUpload.HostUpload | src/utils/webdavUpload.js:266-630 | an upload succeeds exactly on a 2xx status with the provider's own success flag (and `data` for the named providers); the record carries the file's name and size and the provider's URL; the network, timeout, status, refusal and parse-failure messages (a body that is not JSON, or no `data`) are given exactly |
| ImageUpload.UploadToSpecificImageBed | src/utils/webdavUpload.js:238-252 | a success keeps the original name and size; a custom host's URL is never empty |
| ImageUpload.UploadToSingleImageBed | src/utils/webdavUpload.js:194-229 | the legacy host fails with '图床配置不完整' exactly when its API URL or key is missing, and otherwise behaves as its type's adapter |
| ImageUpload.WebDavUpload | src/utils/webdavUpload.js:31-95 | success exactly for a complete configuration, credentials that `btoa` accepts (Latin-1) and a 2xx status; the incomplete-configuration message, the `InvalidCharacterError` rejection before any transfer, and the status, network-error and timeout messages; the public URL is `publicUrl/` plus the generated name ("undefined/…" when `publicUrl` is unset), and the name keeps the extension |
| ImageUpload.EnabledBedsCounts | src/utils/webdavUpload.js:128 | the filter keeps every enabled host as often as it is configured, and no disabled host |
| ImageUpload.EnabledBedsInOrder | src/utils/webdavUpload.js:128 | the kept hosts are a subsequence of the configured list: configuration order is kept |
| ImageUpload.EnabledBedsWithPriority | src/utils/webdavUpload.js:128-129 | the enabled hosts of one priority are, in order, the same whether the filter or the priority selection comes first |
| ImageUpload.EnabledBedsEmpty | src/utils/webdavUpload.js:128 | the filter keeps nothing exactly when no configured host is enabled |
| ImageUpload.InsertByPriorityPermutes | src/utils/webdavUpload.js:129 | inserting a host adds exactly that host |
| ImageUpload.InsertByPrioritySorted | src/utils/webdavUpload.js:129 | inserting into an ascending list keeps it ascending |
| ImageUpload.InsertByPriorityStable | src/utils/webdavUpload.js:129 | the inserted host comes before the hosts of equal priority |
| ImageUpload.SortByPrioritySorted | src/utils/webdavUpload.js:129 | the sorted list is ascending by priority |
| ImageUpload.SortByPriorityPermutes | src/utils/webdavUpload.js:129 | the sorted list is a permutation of the input |
| ImageUpload.SortByPriorityStable | src/utils/webdavUpload.js:129 | hosts of one priority keep their relative order |
| ImageUpload.SortByPriorityCorrect | src/utils/webdavUpload.js:129 | the sort is ascending, a permutation, and stable: hosts of equal priority keep their relative order |
| ImageUpload.Candidates | src/utils/webdavUpload.js:122-133 | '未配置任何图床' for an empty list, '没有启用的图床' when no host is enabled, otherwise a non-empty list |
| ImageUpload.CandidatesAreEnabledHostsByPriority | src/utils/webdavUpload.js:122-133 | the candidates are refused exactly when no host is enabled; otherwise they are ascending by priority, hold every enabled configured host as often as configured and no disabled one, and the hosts of each priority are the enabled hosts of that priority in configuration order |
| ImageUpload.Shuffle | src/utils/webdavUpload.js:179-181 | any sequence of random draws yields a permutation of the hosts |
| ImageUpload.SelectImageBedsByStrategy | src/utils/webdavUpload.js:169-186 | every selection but 'random' returns the list unchanged; every selection returns a permutation |
| ImageUpload.Failover | src/utils/webdavUpload.js:138-160 | over a non-empty host order, where the j-th attempt is the upload to the j-th host with the j-th transfer outcome: the first success is returned after exactly that many attempts, all earlier ones having failed; without failover one attempt; with failover and all failing, every host is tried; one delay between attempts; the final error carries the last host's message |
| ImageUpload.FailoverOutcomeDeterministic | src/utils/webdavUpload.js:138-160 | the attempt results determine the loop's result, its number of attempts and its number of delays |
| ImageUpload.UploadToMultipleImageBeds | src/utils/webdavUpload.js:119-161 | with no usable host it rejects with the filter's error after no attempt; otherwise its result, attempts and delays are those of the failover loop over the enabled hosts in the strategy's order |
| ImageUpload.UploadImage | src/utils/webdavUpload.js:638-672 | rejects in order a disabled service, a non-image MIME type, a size over the limit (equality allowed, no limit when `maxSize` is unset), an unknown method; WebDAV, the legacy host and the host list each give their upload's outcome with its Markdown text, the host list through the failover outcome; a success has passed every check |
| ImageUpload.IsConfigValid | src/utils/webdavUpload.js:702-721 | valid only when enabled and for a known method; WebDAV needs server URL, user, password and public URL; a host list needs one enabled host with URL and key; the legacy host needs URL and key |
| ImageUpload.ValidConfigHasNoConfigurationError | src/utils/webdavUpload.js:702-721 | a valid configuration never fails with a configuration error: WebDAV is complete, the legacy host is complete, the host list yields candidates |
| CacheCodec.ReadEscapedString | src/utils/apiAvailabilityChecker.js:96 | reading back an escaped string up to its closing quote gives the string and leaves what follows |
| CacheCodec.DecodeTimestampRoundTrip | src/utils/apiAvailabilityChecker.js:96-140 | the timestamp part of an entry, written as decimal digits, is read back as the same number |
| CacheCodec.DecodeEntryBodyRoundTrip | src/utils/apiAvailabilityChecker.js:96-140 | the url and timestamp that follow the url's opening quote are read back unchanged |
| CacheCodec.CacheEntryRoundTrip | src/utils/apiAvailabilityChecker.js:96-140 | the cache entry text written at commit is read back by the next check as the same url and timestamp |
| ApiAvailability.ShouldCheckApiAvailability | src/utils/apiAvailabilityChecker.js:27-47 | true exactly when a configuration exists, the middleware flag is not `true`, the URL mode is 'static' and the static base URL is an array of more than one |
| ApiAvailability.StaticUrls | src/utils/apiAvailabilityChecker.js:111-112 | when checking applies there are at least two candidates |
| ApiAvailability.GetAvailableApiUrl | src/utils/apiAvailabilityChecker.js:53-83 | when checking, the stored URL if there is one, else the first static URL; otherwise the first URL of a static array, the single static URL, or '' without one |
| ApiAvailability.Reachable | src/utils/apiAvailabilityChecker.js:197-201 | statuses 200–499 are exactly the non-negative statuses of classes 2xx–4xx |
| ApiAvailability.TestApiEndpoint | src/utils/apiAvailabilityChecker.js:170-207 | true exactly for a reachable status; an invalid URL or a thrown error gives false |
| ApiAvailability.TestApiEndpointWithXhr | src/utils/apiAvailabilityChecker.js:232-265 | true exactly when `onload` sees a reachable status; error and timeout give false |
| ApiAvailability.EnhancedTestApiEndpoint | src/utils/apiAvailabilityChecker.js:210-229 | available exactly when the fetch probe or the XHR probe is; XHR is sent only when fetch says no |
| ApiAvailability.FirstAvailable | src/utils/apiAvailabilityChecker.js:129 | the lowest index whose probe is true, or none when all are false |
| ApiAvailability.CacheAnswerOf | src/utils/apiAvailabilityChecker.js:93-104 | the cache answers exactly when enabled and its entry is younger than the duration; an unparseable entry is told apart |
| ApiAvailability.Committed | src/utils/apiAvailabilityChecker.js:131-160 | the URL is stored; with the cache enabled the cache entry reads back as that URL and timestamp; no other key is added or changed |
| ApiAvailability.RedirectQuery | src/utils/apiAvailabilityChecker.js:286-291 | the query keeps every current key and value and adds `redirect`, which is '/' on the validation page; a `redirect` already present wins |
| ApiAvailability.Browser.SilentCheckApiAvailability | src/utils/apiAvailabilityChecker.js:86-167 | no check, unreadable cache, cache hit, stored URL and probing each give their result and state; the probed winner is the first reachable candidate, else the first URL; the result is stored and is what `getAvailableApiUrl` then returns |
| ApiAvailability.Browser.InitApiAvailabilityChecker | src/utils/apiAvailabilityChecker.js:267-305 | nothing without checking; the stored URL; with silent checking, exactly the silent check's answer, probes and new state; or a push to '/api-validation' with the redirect query unless already there |
| ApiAvailability.CheckTwice | src/utils/apiAvailabilityChecker.js:93-109 | after a check has answered with a URL, the next check answers with the same URL and probes nothing |
| Request.CurrentLanguage | src/api/request.js:10 | the stored language, or 'zh-CN' when unset |
| Request.LocalizeBackendMessage | src/api/request.js:8-57 | for an unset or 'zh' language a known message becomes its Chinese text and an unknown one is kept; other languages keep the message |
| Request.FindRow | src/api/request.js:108-110 | the first cookie row starting with the prefix, or none |
| Request.CookieValueRoundTrip | src/api/request.js:114 | the text after `auth_data=` is read back whole when it has no `=` |
| Request.CookieAuth | src/api/request.js:103-127 | the helper's cookie; otherwise a site-matching JSON value, '' on a site mismatch, the raw text when it does not parse, '' without the row |
| Request.BackupAuth | src/api/request.js:133-149 | the backup entry's value when it parses as a record of this site, otherwise the backup text itself |
| Request.ResolveAuth | src/api/request.js:101-149 | the token is the first non-empty of localStorage, cookie, window global and backup, in that order |
| Request.ResolveAuthData | src/api/request.js:101-149 | the step-by-step lookup yields the resolved token |
| Request.ResolveBaseUrl | src/api/request.js:69-87 | `getApiBaseUrl()` unless several base URLs are configured outside middleware mode and an available URL is known |
| Request.PairsToMap | src/api/request.js:158-163 | every assigned header name is present with a value assigned to it |
| Request.PairsToMapLastWins | src/api/request.js:158-163 | a header name takes its last assigned value |
| Request.FinalHeaders | src/api/request.js:89-164 | the header names gained; custom headers win; the token is set when present and not overridden; the form content type is set on conversion unless overridden; every other header is kept |
| Request.RequestConfig.RouteRequest | src/api/request.js:69-87 | base URL as resolved; the path is mapped only in middleware mode |
| Request.RequestConfig.ConvertBody | src/api/request.js:89-99 | a POST body to a V2board-family backend becomes its pairs in order with the form content type; any other body is kept |
| Request.RequestConfig.ApplyCustomHeaders | src/api/request.js:155-164 | each custom header overwrites, in order |
| Request.RequestConfig.Intercept | src/api/request.js:67-170 | the whole new request configuration: base URL, path, body and headers |
| Request.OnResponse | src/api/request.js:176-195 | every response other than the expired-session message resolves to its body; that message logs out, moves to '/#/login' and rejects with it, unless the logout throws, which rejects with '响应数据处理错误' and does not navigate |
| Request.ResponseErrorText | src/api/request.js:199-211 | a backend message is localised; else the fixed texts of 400, 401, 403 and 404; else '请求失败 (status)' with the status in plain decimal: it reads back and has no leading zero |
| Request.TransportErrorText | src/api/request.js:212-218 | a message containing 'timeout' becomes '请求超时'; otherwise one containing 'Network Error' becomes the network text; anything else is kept |
| Request.TransportErrorTextIdempotent | src/api/request.js:212-218 | mapping a transport message twice is mapping it once |
| Request.RequestError.HandleResponseError | src/api/request.js:196-221 | with a response only its message changes; without one only the error message changes |
| Router.PageTitle | src/router/index.js:603-620 | 'translation - site' when a key has a real translation, else the site name; the title always ends with the site name |
| Router.CacheEffectFor | src/router/index.js:686-694 | added exactly when keepAlive is truthy and the route is named, removed exactly when keepAlive is `false` and the route is named |
| Router.BeforeEach | src/router/index.js:575-702 | the browser restriction first, with no effects; then the title, a language reload exactly when `requiresAuth` truthiness changes, Login exactly without a token on a protected route, the dashboard for '/login' with a token, cache effects only when proceeding |
| Router.NoProtectedRouteWithoutToken | src/router/index.js:672-675 | a route that requires authentication is never entered without a token |
| Router.RedirectsSettle | src/router/index.js:575-702 | navigating to the route a redirect names, with the same token and browser, proceeds |
| Router.RootRedirect | src/router/index.js:57 | '/landing' exactly when the landing page is enabled, else '/login' |
| Router.LandingGuard | src/router/index.js:95-107 | the landing page sends to '/login' exactly when disabled |
| Router.RootRedirectSettles | src/router/index.js:57-107 | the root redirect ends at the login page or at an open landing page |
| Router.TrafficLogGuard | src/router/index.js:484-496 | the traffic log sends to '/dashboard' exactly when disabled |
| Router.DepositGuard | src/router/index.js:517-529 | the deposit page sends to '/dashboard' exactly when the backend is not XiaoV2board |
| Router.GetCustomOrDefaultLandingPage | src/router/index.js:718-728 | the custom landing component exactly when `customLandingPage` is truthy |

## Left out

- The transfers themselves are not modelled: XHR, `fetch`, `FormData`, the `AbortController` and `setTimeout` timeouts, and upload progress (src/utils/webdavUpload.js:52). Each transfer is an outcome passed in: a status with a parsed body, a network error or a timeout.
- ImageUpload.UploadToMultipleImageBeds: the `delay` between attempts is counted, not timed.
- An absent `imageBedStrategy` is not modelled. The source then fails with a `TypeError` when it reads the strategy's `method` (src/utils/webdavUpload.js:170); the model always has a strategy.
- Host priorities are integers. A missing or non-numeric priority makes the comparator at src/utils/webdavUpload.js:129 return `NaN`, which leaves the order to the engine; that case and fractional priorities are not modelled.
- An empty `staticBaseUrl` array makes `getAvailableApiUrl` return `undefined` (src/utils/apiAvailabilityChecker.js:59-61); the model gives '', which is falsy like it.
- ImageUpload.Shuffle: the random comparator `Math.random() - 0.5` is modelled only as some permutation, driven by a sequence of draws. Its distribution and the engine's sort order are not modelled.
- `forceLogout` and the auth module are not modelled. Whether loading the module or calling `forceLogout` throws is a parameter of `OnResponse`.
- `Date.now`, `Math.random().toString(36)`, `decodeURIComponent` and `JSON.parse` of tokens, and `URLSearchParams` encoding are parameters or are left out. The Basic credential text is modelled, and so is the rejection `btoa` gives for a character above U+00FF; the base64 encoding itself is not. That rejection is a `DOMException` whose message differs between browsers, so the model carries its name, `InvalidCharacterError`. The request body is kept as pairs.
- ImageUpload.WebDavUpload: the PUT URL and the request headers are not part of the result.
- `formatFileSize` (src/utils/webdavUpload.js:690-696) is a parameter, because it is floating point.
- CacheCodec.DecodeCacheEntry reads only the canonical text that `JSON.stringify` writes. Any other text counts as unparseable, although `JSON.parse` would accept whitespace, other key orders or non-integer timestamps.
- The silent check's `catch` (src/utils/apiAvailabilityChecker.js:91-165) is not modelled. It returns `null` when session storage refuses a write, for example over quota or with storage denied; here session storage always accepts writes.
- ApiAvailability.Browser.SilentCheckApiAvailability: the probes run concurrently under `Promise.all` in the source. Here they are a sequence in candidate order, because only index order decides the winner. The probe timeout setting is not modelled.
- The `_router` memo and the dynamic `import()`s in the availability checker and the router are not modelled. `InitApiAvailabilityChecker` takes the current route as a parameter, and a failure to load the router is not modelled.
- `mapApiPath`, `getApiBaseUrl`, `isXiaoV2board`/`isXboard` and the site name come from files that are not part of this model. They are parameters.
- Request.RequestConfig.ConvertBody: a body given as an object other than a plain record (for example an existing `URLSearchParams`) is not modelled, and inherited enumerable keys are not either.
- Request.LocalizeBackendMessage: a backend message equal to an `Object.prototype` property name (such as `constructor`) is treated as unknown. The source would look up the inherited property.
- Request.CookieAuth: `SITE_CONFIG.siteName` is taken to be defined. `document.cookie` is given already split into rows.
- The interceptors' `console` logging and the request interceptor's own error path (src/api/request.js:171-174) are not modelled.
- The no-op availability block in `beforeEach` (src/router/index.js:587-598), the delayed title retry, the `page-transitioning` class and `afterEach` are not modelled. The guard returns the title, the language to reload and the cache change for its caller to apply, because `pageCache` and `i18n` are not part of this model.
- The route table is represented only by the routes the guards redirect to: Login, Dashboard, BrowserRestricted and Landing.
- src/i18n/index.js, src/appInit.js, src/main.js, src/api/wallet.js, vue.config.js and performance-test.js are not part of this model.
