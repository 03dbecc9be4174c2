/** The HTTP client's interceptors: the request interceptor that picks the
    base URL, rewrites POST bodies as form pairs for the V2board-family
    backends, resolves the `Authorization` token from its several stores and
    applies the configured custom headers; the response interceptor that
    logs out on an expired session; and the error interceptor that turns a
    failure into a user-facing message, translating known backend messages
    for Chinese users. */
module Request {
  import opened Wrappers
  import opened Strings
  import opened ApiAvailability

  // ---------------------------------------------------------------------
  // Message localisation
  // ---------------------------------------------------------------------

  /** The backend's English messages and their Chinese texts. */
  const MessageTable: map<string, string> := map[
    "The given data was invalid." := "输入的数据无效，请检查您的邮箱和密码",
    "Invalid credentials." := "邮箱或密码错误",
    "User not found." := "用户不存在",
    "Email or password is incorrect." := "邮箱或密码不正确",
    "Authentication failed." := "认证失败",
    "Login failed." := "登录失败",
    "Email already exists." := "邮箱已被注册",
    "User already exists." := "用户已存在",
    "Registration failed." := "注册失败",
    "Invalid email format." := "邮箱格式无效",
    "Password too short." := "密码长度不足",
    "Password too weak." := "密码强度不足",
    "Server error." := "服务器错误",
    "Network error." := "网络错误",
    "Request timeout." := "请求超时",
    "Service unavailable." := "服务不可用",
    "Access denied." := "访问被拒绝",
    "Forbidden." := "禁止访问",
    "Not found." := "未找到",
    "Bad request." := "请求错误",
    "Unauthorized." := "未授权",
    "Verification code invalid." := "验证码无效",
    "Verification code expired." := "验证码已过期",
    "Verification code required." := "验证码不能为空",
    "Token invalid." := "令牌无效",
    "Token expired." := "令牌已过期",
    "Token required." := "令牌不能为空"
  ]

  const DefaultLanguage := "zh-CN"

  /** `localStorage.getItem('language') || 'zh-CN'` */
  function CurrentLanguage(stored: string): (language: string)
    ensures language != ""
    ensures stored != "" ==> language == stored
    ensures stored == "" ==> language == DefaultLanguage
  {
    if stored != "" then stored else DefaultLanguage
  }

  /** `localizeBackendMessage`, with `language` the stored `language`
      setting ("" when unset). */
  function LocalizeBackendMessage(language: string, message: string): (r: string)
    ensures language == "" || StartsWith(language, "zh") ==>
      r == if message in MessageTable then MessageTable[message] else message
    ensures language != "" && !StartsWith(language, "zh") ==> r == message
  {
    var current := CurrentLanguage(language);
    if StartsWith(current, "zh") then
      if message in MessageTable && MessageTable[message] != "" then MessageTable[message] else message
    else message
  }

  // ---------------------------------------------------------------------
  // The authorization token
  // ---------------------------------------------------------------------

  /** What `decodeURIComponent` + `JSON.parse` (or `JSON.parse` alone) make
      of a stored token: a text that does not parse, or a value whose `site`
      (`None` when missing, or when the value is `null`) and `value` the
      code reads. */
  datatype ParsedAuth = Malformed | Parsed(site: Option<string>, value: string)

  /** Where the cookie comes from: the auth helper's `getCookie`, or, when
      loading the helper fails, the rows of `document.cookie` split on "; ". */
  datatype CookieSource = HelperCookie(value: string) | DocumentCookie(rows: seq<string>)

  const AuthCookiePrefix := "auth_data="

  /** `rows.find(row => row.startsWith(prefix))`, as an index. */
  function FindRow(rows: seq<string>, prefix: string): (r: Option<nat>)
    ensures r.Some? ==> r.value < |rows| && StartsWith(rows[r.value], prefix)
    ensures r.Some? ==> forall j :: 0 <= j < r.value ==> !StartsWith(rows[j], prefix)
    ensures r.None? ==> forall j :: 0 <= j < |rows| ==> !StartsWith(rows[j], prefix)
    decreases |rows|
  {
    if |rows| == 0 then None
    else if StartsWith(rows[0], prefix) then Some(0)
    else match FindRow(rows[1..], prefix)
      case None => None
      case Some(i) => Some(i + 1)
  }

  /** `row.split('=')[1]` ("" where JavaScript would give `undefined`). */
  function SecondField(row: string): string {
    var parts := Split(row, '=');
    if |parts| > 1 then parts[1] else ""
  }

  /** The value of an `auth_data` cookie row is what follows `auth_data=`,
      whenever that value has no `=` (as a URI-encoded value never has). */
  lemma CookieValueRoundTrip(v: string)
    requires '=' !in v
    ensures SecondField(AuthCookiePrefix + v) == v
  {
    assert AuthCookiePrefix + v == "auth_data" + ['='] + v;
    SplitAfterPiece("auth_data", '=', v);
    SplitWithoutSeparator(v, '=');
  }

  /** The token the cookie step yields: the helper's value; or the value of
      the first `auth_data=` row of `document.cookie`, read as a JSON record
      whose `value` counts only when its `site` is this site, and taken raw
      when it does not parse. */
  function CookieAuth(cookie: CookieSource, decodeParse: string -> ParsedAuth, siteName: string): (r: string)
    ensures cookie.HelperCookie? ==> r == cookie.value
    ensures cookie.DocumentCookie? && FindRow(cookie.rows, AuthCookiePrefix).None? ==> r == ""
    ensures cookie.DocumentCookie? && FindRow(cookie.rows, AuthCookiePrefix).Some? ==>
      var raw := SecondField(cookie.rows[FindRow(cookie.rows, AuthCookiePrefix).value]);
      && (decodeParse(raw) == Malformed ==> r == raw)
      && (decodeParse(raw).Parsed? && decodeParse(raw).site == Some(siteName) ==> r == decodeParse(raw).value)
      && (decodeParse(raw).Parsed? && decodeParse(raw).site != Some(siteName) ==> r == "")
  {
    match cookie
    case HelperCookie(v) => v
    case DocumentCookie(rows) =>
      match FindRow(rows, AuthCookiePrefix)
      case None => ""
      case Some(i) =>
        var raw := SecondField(rows[i]);
        match decodeParse(raw)
        case Malformed => raw
        case Parsed(site, value) => if site == Some(siteName) then value else ""
  }

  /** The token the backup `cookie_auth_data` entry yields: its `value` when
      it parses as a record of this site, otherwise the stored text itself. */
  function BackupAuth(backup: string, parseJson: string -> ParsedAuth, siteName: string): (r: string)
    ensures backup == "" ==> r == ""
    ensures backup != "" && parseJson(backup).Parsed? && parseJson(backup).site == Some(siteName) ==>
      r == parseJson(backup).value
    ensures backup != "" && !(parseJson(backup).Parsed? && parseJson(backup).site == Some(siteName)) ==>
      r == backup
  {
    if backup == "" then ""
    else match parseJson(backup)
      case Malformed => backup
      case Parsed(site, value) => if site == Some(siteName) then value else backup
  }

  /** Everything the request interceptor reads besides the request itself. */
  datatype RequestEnv = RequestEnv(
    ez: Option<EzConfig>,
    session: map<string, string>,
    apiBaseUrl: string,                  // what `getApiBaseUrl()` returns
    mapApiPath: string -> string,        // the middleware path mapper
    xiaoV2board: bool,
    xboard: bool,
    localAuth: string,                   // localStorage `auth_data`
    cookie: CookieSource,
    decodeParse: string -> ParsedAuth,
    windowAuth: string,                  // `window.authDataInStorage`
    backupAuth: string,                  // localStorage `cookie_auth_data`
    parseJson: string -> ParsedAuth,
    siteName: string,
    customEnabled: Flag,
    customHeaders: Option<seq<(string, string)>>)

  /** The token the request carries: the first non-empty of localStorage,
      the cookie, the window global and the backup entry, in that order. */
  function ResolveAuth(env: RequestEnv): (r: string)
    ensures env.localAuth != "" ==> r == env.localAuth
    ensures env.localAuth == "" && CookieAuth(env.cookie, env.decodeParse, env.siteName) != "" ==>
      r == CookieAuth(env.cookie, env.decodeParse, env.siteName)
    ensures (env.localAuth == "" && CookieAuth(env.cookie, env.decodeParse, env.siteName) == ""
             && env.windowAuth != "") ==> r == env.windowAuth
    ensures (env.localAuth == "" && CookieAuth(env.cookie, env.decodeParse, env.siteName) == ""
             && env.windowAuth == "") ==> r == BackupAuth(env.backupAuth, env.parseJson, env.siteName)
  {
    var sources := [env.localAuth, CookieAuth(env.cookie, env.decodeParse, env.siteName),
                    env.windowAuth, BackupAuth(env.backupAuth, env.parseJson, env.siteName)];
    assert sources[1..] == [sources[1], sources[2], sources[3]];
    assert sources[1..][1..] == [sources[2], sources[3]];
    assert sources[1..][1..][1..] == [sources[3]];
    FirstTruthy(sources)
  }

  // ---------------------------------------------------------------------
  // Base URL, body and headers
  // ---------------------------------------------------------------------

  /** `EZ_CONFIG.API_MIDDLEWARE_ENABLED`, by truthiness. */
  predicate MiddlewareOn(ez: Option<EzConfig>) {
    ez.Some? && ez.value.middlewareEnabled.Truthy()
  }

  /** `EZ_CONFIG.API_BASE_URLS` is an array of more than one URL. */
  predicate SeveralBaseUrls(ez: Option<EzConfig>) {
    ez.Some? && ez.value.apiBaseUrls.UrlList? && |ez.value.apiBaseUrls.urls| > 1
  }

  /** The base URL a request goes to: `getApiBaseUrl()`, replaced by the
      available URL when several base URLs are configured, the middleware is
      off and an available URL is known. */
  function ResolveBaseUrl(env: RequestEnv): (base: string)
    ensures MiddlewareOn(env.ez) || !SeveralBaseUrls(env.ez) ==> base == env.apiBaseUrl
    ensures !MiddlewareOn(env.ez) && SeveralBaseUrls(env.ez) ==>
      base == if GetAvailableApiUrl(env.ez, env.session) != "" then GetAvailableApiUrl(env.ez, env.session) else env.apiBaseUrl
  {
    if !MiddlewareOn(env.ez) && SeveralBaseUrls(env.ez) && GetAvailableApiUrl(env.ez, env.session) != ""
    then GetAvailableApiUrl(env.ez, env.session)
    else env.apiBaseUrl
  }

  /** A request body: none, a plain object (its own keys and values, in
      iteration order), or form pairs. */
  datatype Body = NoData | Fields(fields: seq<(string, string)>) | Form(pairs: seq<(string, string)>)

  /** The body is rewritten as form pairs for a POST with a body to a
      V2board-family backend. */
  predicate ConvertsToForm(env: RequestEnv, httpMethod: string, data: Body) {
    (env.xiaoV2board || env.xboard) && httpMethod == "post" && data.Fields?
  }

  predicate CustomHeadersOn(env: RequestEnv) {
    env.customEnabled.Truthy() && env.customHeaders.Some?
  }

  const ContentType := "Content-Type"
  const FormEncoding := "application/x-www-form-urlencoded"
  const Authorization := "Authorization"

  /** The headers of an object whose own keys are `pairs`, assigned in order:
      a later assignment of a name wins. */
  function PairsToMap(pairs: seq<(string, string)>): (m: map<string, string>)
    ensures forall i :: 0 <= i < |pairs| ==> pairs[i].0 in m
    ensures forall k :: k in m ==> exists i :: 0 <= i < |pairs| && pairs[i].0 == k && m[k] == pairs[i].1
    decreases |pairs|
  {
    if |pairs| == 0 then map[]
    else
      var init := pairs[..|pairs| - 1];
      assert forall i :: 0 <= i < |init| ==> init[i] == pairs[i];
      PairsToMap(init)[pairs[|pairs| - 1].0 := pairs[|pairs| - 1].1]
  }

  /** The value a name ends up with is the one of its last assignment. */
  lemma {:induction false} PairsToMapLastWins(pairs: seq<(string, string)>, i: nat)
    requires i < |pairs|
    requires forall j :: i < j < |pairs| ==> pairs[j].0 != pairs[i].0
    ensures PairsToMap(pairs)[pairs[i].0] == pairs[i].1
    decreases |pairs|
  {
    if i < |pairs| - 1 {
      var init := pairs[..|pairs| - 1];
      assert init[i] == pairs[i];
      PairsToMapLastWins(init, i);
    }
  }

  lemma OverlayStep(base: map<string, string>, pairs: seq<(string, string)>, i: nat)
    requires i < |pairs|
    ensures base + PairsToMap(pairs[..i + 1]) == (base + PairsToMap(pairs[..i]))[pairs[i].0 := pairs[i].1]
  {
    assert pairs[..i + 1][..i] == pairs[..i];
  }

  /** The headers after the interceptor: the form content type when the body
      was converted, then the token when there is one, then every custom
      header, each overwriting what was there. */
  function FinalHeaders(h: map<string, string>, converted: bool, auth: string, custom: Option<seq<(string, string)>>)
    : (r: map<string, string>)
    ensures r.Keys == h.Keys + (if converted then {ContentType} else {}) + (if auth != "" then {Authorization} else {})
                     + (if custom.Some? then PairsToMap(custom.value).Keys else {})
    ensures custom.Some? ==> forall k :: k in PairsToMap(custom.value) ==> r[k] == PairsToMap(custom.value)[k]
    ensures auth != "" && (custom.None? || Authorization !in PairsToMap(custom.value)) ==> r[Authorization] == auth
    ensures converted && (custom.None? || ContentType !in PairsToMap(custom.value)) ==> r[ContentType] == FormEncoding
    ensures forall k :: (k in h && (custom.None? || k !in PairsToMap(custom.value))
                         && !(converted && k == ContentType) && !(auth != "" && k == Authorization)) ==> r[k] == h[k]
  {
    var h1 := if converted then h[ContentType := FormEncoding] else h;
    var h2 := if auth != "" then h1[Authorization := auth] else h1;
    if custom.Some? then h2 + PairsToMap(custom.value) else h2
  }

  /** An outgoing request's configuration, which the interceptor updates in
      place. */
  class RequestConfig {
    var baseURL: string
    var url: string
    var httpMethod: string
    var data: Body
    var headers: map<string, string>

    constructor (url: string, httpMethod: string, data: Body, headers: map<string, string>)
      ensures this.baseURL == "" && this.url == url && this.httpMethod == httpMethod
      ensures this.data == data && this.headers == headers
    {
      baseURL := "";
      this.url := url;
      this.httpMethod := httpMethod;
      this.data := data;
      this.headers := headers;
    }

    /** The first step of the request interceptor: the base URL and, in
        middleware mode, the mapped path. */
    method RouteRequest(env: RequestEnv)
      modifies this
      ensures baseURL == ResolveBaseUrl(env)
      ensures url == if MiddlewareOn(env.ez) then env.mapApiPath(old(url)) else old(url)
      ensures httpMethod == old(httpMethod) && data == old(data) && headers == old(headers)
    {
      baseURL := env.apiBaseUrl;
      if MiddlewareOn(env.ez) {
        url := env.mapApiPath(url);
      } else if SeveralBaseUrls(env.ez) {
        var available := GetAvailableApiUrl(env.ez, env.session);
        if available != "" {
          baseURL := available;
        }
      }
    }

    /** The form conversion: the own key/value pairs of the body, in order,
        become form pairs, and the content type says so. */
    method ConvertBody(env: RequestEnv)
      modifies this
      ensures data == if ConvertsToForm(env, old(httpMethod), old(data)) then Form(old(data).fields) else old(data)
      ensures headers == if ConvertsToForm(env, old(httpMethod), old(data)) then old(headers)[ContentType := FormEncoding] else old(headers)
      ensures baseURL == old(baseURL) && url == old(url) && httpMethod == old(httpMethod)
    {
      if ConvertsToForm(env, httpMethod, data) {
        var fields := data.fields;
        var form: seq<(string, string)> := [];
        for i := 0 to |fields|
          invariant form == fields[..i]
        {
          form := form + [fields[i]];
        }
        data := Form(form);
        headers := headers[ContentType := FormEncoding];
      }
    }

    /** Every custom header, in order, overwrites the header of that name. */
    method ApplyCustomHeaders(custom: seq<(string, string)>)
      modifies this
      ensures headers == old(headers) + PairsToMap(custom)
      ensures baseURL == old(baseURL) && url == old(url) && httpMethod == old(httpMethod) && data == old(data)
    {
      for i := 0 to |custom|
        invariant headers == old(headers) + PairsToMap(custom[..i])
        invariant baseURL == old(baseURL) && url == old(url) && httpMethod == old(httpMethod) && data == old(data)
      {
        OverlayStep(old(headers), custom, i);
        headers := headers[custom[i].0 := custom[i].1];
      }
      assert custom[..|custom|] == custom;
    }

    /** The request interceptor. */
    method Intercept(env: RequestEnv)
      modifies this
      ensures baseURL == ResolveBaseUrl(env)
      ensures url == if MiddlewareOn(env.ez) then env.mapApiPath(old(url)) else old(url)
      ensures httpMethod == old(httpMethod)
      ensures data == if ConvertsToForm(env, old(httpMethod), old(data)) then Form(old(data).fields) else old(data)
      ensures headers == FinalHeaders(old(headers), ConvertsToForm(env, old(httpMethod), old(data)), ResolveAuth(env),
                                      if CustomHeadersOn(env) then env.customHeaders else None)
    {
      RouteRequest(env);
      ConvertBody(env);
      var authData := ResolveAuthData(env);
      if authData != "" {
        headers := headers[Authorization := authData];
      }
      if CustomHeadersOn(env) {
        ApplyCustomHeaders(env.customHeaders.value);
      }
    }
  }

  /** The token lookup as the interceptor performs it: each store is
      consulted only while no token has been found. */
  method ResolveAuthData(env: RequestEnv) returns (authData: string)
    ensures authData == ResolveAuth(env)
  {
    authData := env.localAuth;
    if authData == "" {
      authData := CookieAuth(env.cookie, env.decodeParse, env.siteName);
    }
    if authData == "" && env.windowAuth != "" {
      authData := env.windowAuth;
    }
    if authData == "" {
      authData := BackupAuth(env.backupAuth, env.parseJson, env.siteName);
    }
  }

  // ---------------------------------------------------------------------
  // Responses
  // ---------------------------------------------------------------------

  const SessionExpired := "未登录或登陆已过期"
  const LoginLocation := "/#/login"

  /** A response body: the `message` the interceptor inspects, and the rest
      of the body, which it passes on untouched. */
  datatype ResponseData = ResponseData(message: Option<string>, payload: string)

  /** What the success interceptor does: resolve with the body; or log out,
      send the browser to `location` and reject with `reason`; or, when the
      logout itself throws, reject with `reason` without navigating. */
  datatype ResponseVerdict =
    | Resolved(data: Option<ResponseData>)
    | LoggedOut(reason: string, location: string)
    | Rejected(reason: string)

  const HandlingError := "响应数据处理错误"

  /** The success interceptor. `logoutThrows` says whether loading the
      auth module or `forceLogout()` throws, which is code outside this
      model; the `catch` then rejects with the handling error. */
  function OnResponse(data: Option<ResponseData>, logoutThrows: bool): (v: ResponseVerdict)
    ensures v.Resolved? <==> !(data.Some? && data.value.message == Some(SessionExpired))
    ensures v.Resolved? ==> v.data == data
    ensures v.LoggedOut? <==> data.Some? && data.value.message == Some(SessionExpired) && !logoutThrows
    ensures v.LoggedOut? ==> v.reason == SessionExpired && v.location == LoginLocation
    ensures v.Rejected? <==> data.Some? && data.value.message == Some(SessionExpired) && logoutThrows
    ensures v.Rejected? ==> v.reason == HandlingError
  {
    if data.Some? && data.value.message == Some(SessionExpired) then
      if logoutThrows then Rejected(HandlingError) else LoggedOut(SessionExpired, LoginLocation)
    else Resolved(data)
  }

  /** The fixed texts for the statuses the error interceptor names. */
  const StatusTexts: map<nat, string> := map[
    400 := "请求参数错误",
    401 := "未授权，请重新登录",
    403 := "拒绝访问",
    404 := "请求的资源不存在"
  ]

  const FailurePrefix := "请求失败 ("
  const TimeoutText := "请求超时"
  const NetworkText := "网络错误，请检查您的网络连接"

  /** The message put on a failed response: the backend's own message
      (localised) when it sent one, otherwise a text for its status. */
  function ResponseErrorText(language: string, status: nat, dataMessage: string): (r: string)
    ensures dataMessage != "" ==> r == LocalizeBackendMessage(language, dataMessage)
    ensures dataMessage == "" && status in StatusTexts ==> r == StatusTexts[status]
    ensures dataMessage == "" && status !in StatusTexts ==>
      && StartsWith(r, FailurePrefix) && |r| > |FailurePrefix| && r[|r| - 1] == ')'
      && ParseNat(r[|FailurePrefix|..|r| - 1]) == Some(status)
      // plain decimal: no leading zero
      && (|r| > |FailurePrefix| + 2 ==> r[|FailurePrefix|] != '0')
  {
    if dataMessage != "" then LocalizeBackendMessage(language, dataMessage)
    else if status in StatusTexts then StatusTexts[status]
    else
      var r := FailurePrefix + NatToString(status) + ")";
      assert r[|FailurePrefix|..|r| - 1] == NatToString(status);
      ParseNatToString(status);
      r
  }

  /** The message put on a failure without a response: timeouts first, then
      network errors; anything else is kept. */
  function TransportErrorText(message: string): (r: string)
    ensures Contains(message, "timeout") ==> r == TimeoutText
    ensures !Contains(message, "timeout") && Contains(message, "Network Error") ==> r == NetworkText
    ensures !Contains(message, "timeout") && !Contains(message, "Network Error") ==> r == message
  {
    if Contains(message, "timeout") then TimeoutText
    else if Contains(message, "Network Error") then NetworkText
    else message
  }

  /** Mapping a transport message twice is mapping it once: neither
      replacement text is itself recognised. */
  lemma TransportErrorTextIdempotent(message: string)
    ensures TransportErrorText(TransportErrorText(message)) == TransportErrorText(message)
  {
    LacksCharacter(TimeoutText, "timeout", 't');
    LacksCharacter(TimeoutText, "Network Error", 'N');
    LacksCharacter(NetworkText, "timeout", 't');
    LacksCharacter(NetworkText, "Network Error", 'N');
  }

  /** The `response` of a failed request, as far as the interceptor uses it. */
  datatype ErrorResponse = ErrorResponse(status: nat, dataMessage: string, message: string)

  /** A failed request's error object, whose messages the error interceptor
      rewrites in place. */
  class RequestError {
    var response: Option<ErrorResponse>
    var message: string

    constructor (response: Option<ErrorResponse>, message: string)
      ensures this.response == response && this.message == message
    {
      this.response := response;
      this.message := message;
    }

    /** The error interceptor, with `language` the stored language setting. */
    method HandleResponseError(language: string)
      modifies this
      ensures old(response).Some? ==>
        && response == Some(old(response).value.(message :=
             ResponseErrorText(language, old(response).value.status, old(response).value.dataMessage)))
        && message == old(message)
      ensures old(response).None? ==> response == None && message == TransportErrorText(old(message))
    {
      match response
      case Some(resp) =>
        response := Some(resp.(message := ResponseErrorText(language, resp.status, resp.dataMessage)));
      case None =>
        message := TransportErrorText(message);
    }
  }
}
