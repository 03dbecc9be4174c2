/** The ticket image-upload service: file validation, the WebDAV target, the
    image-host adapters (ImgBB, SM.MS, Chevereto, Lsky Pro, custom), the
    ordering of configured hosts and the failover loop over them.

    The network is not modelled: every transfer is replaced by the outcome
    the XHR reports (`HttpOutcome`), and the JSON it returned by the fields
    the adapters read (`Envelope`). Clock, randomness and base64 are
    parameters. */
module ImageUpload {
  import opened Wrappers
  import opened Strings

  // ---------------------------------------------------------------------
  // Data model
  // ---------------------------------------------------------------------

  /** The browser `File` being uploaded. */
  datatype File = File(name: string, mimeType: string, size: nat)

  /** One image host of `imageBeds`, or the legacy single `imageBed`.
      `kind` is the configured `type` string. */
  datatype ImageBed = ImageBed(name: string, kind: string, priority: int, enabled: bool, apiUrl: string, apiKey: string)

  /** `imageBedStrategy`; `selection` is its `method` field. */
  datatype Strategy = Strategy(selection: string, enableFailover: bool, retryDelay: int)

  /** `webdav`; `publicUrl` is `None` when it is not set. */
  datatype WebDavConfig = WebDavConfig(serverUrl: string, username: string, password: string, uploadPath: string, publicUrl: Option<string>)

  /** `TICKET_CONFIG.imageUpload`; `maxSize` is `None` when it is not set. */
  datatype UploadConfig = UploadConfig(
    enabled: bool,
    uploadMethod: string,
    maxSize: Option<int>,
    webdav: WebDavConfig,
    imageBed: ImageBed,
    imageBeds: seq<ImageBed>,
    strategy: Strategy)

  /** The normalised record every adapter resolves with (`success` is always true). */
  datatype Uploaded = Uploaded(url: string, fileName: string, originalName: string, size: nat)

  /** What `uploadImage` resolves with: the adapter's record plus `markdown`. */
  datatype UploadedImage = UploadedImage(upload: Uploaded, markdown: string)

  /** `result.data` of a provider response; `url` is `None` when missing. */
  datatype DataField = DataField(url: Option<string>)

  /** The fields of a parsed provider response that the adapters read.
      `errorMessage` is `result.error?.message`; string fields are "" when
      missing or falsy. */
  datatype Envelope = Envelope(
    success: bool,
    statusCode: Option<int>,
    status: bool,
    data: Option<DataField>,
    url: string,
    link: string,
    src: string,
    message: string,
    errorMessage: string)

  /** `JSON.parse(xhr.responseText)`: `Unparseable` also covers a parsed
      value whose fields cannot be read (null), which throws the same way. */
  datatype Body = Unparseable | Json(envelope: Envelope)

  /** What the XHR reports: its `load` event with status, status text and
      body, its `error` event, or its `timeout` event. */
  datatype HttpOutcome = Loaded(status: nat, statusText: string, body: Body) | NetworkError | TimedOut

  datatype Provider = ImgBB | SMMS | Chevereto | Lsky | Custom

  /** A value as a template literal writes it: a missing one reads "undefined". */
  function Interpolated(v: Option<string>): (text: string)
    ensures v.Some? ==> text == v.value
    ensures v.None? ==> text == "undefined"
  {
    if v.Some? then v.value else "undefined"
  }

  const NoHostConfigured := "未配置任何图床"
  const NoHostEnabled := "没有启用的图床"
  const AllHostsFailed := "所有图床上传都失败了: "

  // ---------------------------------------------------------------------
  // File names, Basic credentials, Markdown
  // ---------------------------------------------------------------------

  /** `name.split('.').pop()`: the text after the last dot, or the whole name. */
  function Extension(name: string): (ext: string)
    ensures '.' !in ext
    ensures |ext| <= |name| && name[|name| - |ext|..] == ext
    ensures |ext| < |name| ==> name[|name| - |ext| - 1] == '.'
    decreases |name|
  {
    if |name| == 0 || name[|name| - 1] == '.' then ""
    else
      var init := name[..|name| - 1];
      var e := Extension(init);
      var ext := e + [name[|name| - 1]];
      assert name[|name| - |ext|..] == init[|init| - |e|..] + [name[|name| - 1]];
      assert |ext| < |name| ==> name[|name| - |ext| - 1] == init[|init| - |e| - 1];
      ext
  }

  /** The extension of a name that ends in `.` followed by dot-free text is that text. */
  lemma {:induction false} ExtensionAfterDot(prefix: string, ext: string)
    requires '.' !in ext
    ensures Extension(prefix + "." + ext) == ext
  {
    var s := prefix + "." + ext;
    var e := Extension(s);
    assert s[|s| - |ext| - 1] == '.';
    assert s[|s| - |ext|..] == ext;
    assert |e| == |ext|;
  }

  /** `generateUniqueFileName`: `${timestamp}_${random}.${extension}`. The
      clock reading and the random base-36 token are parameters. */
  function UniqueFileName(name: string, timestamp: nat, token: string): (r: string)
    ensures Extension(r) == Extension(name)
    ensures StartsWith(r, NatToString(timestamp) + "_" + token + ".")
    ensures |r| == |NatToString(timestamp) + "_" + token| + 1 + |Extension(name)|
  {
    ExtensionAfterDot(NatToString(timestamp) + "_" + token, Extension(name));
    NatToString(timestamp) + "_" + token + "." + Extension(name)
  }

  /** The `user:password` text that the WebDAV `Authorization: Basic` header
      carries in base64 (section 2 of RFC 7617). */
  function BasicCredentials(user: string, password: string): string {
    user + ":" + password
  }

  /** Splits credentials at the first colon. */
  function SplitCredentials(c: string): (string, string)
    decreases |c|
  {
    if |c| == 0 then ("", "")
    else if c[0] == ':' then ("", c[1..])
    else var (u, p) := SplitCredentials(c[1..]); ([c[0]] + u, p)
  }

  /** Every character fits in one byte, as `btoa` requires (it throws an
      `InvalidCharacterError` otherwise). */
  predicate Latin1(s: string) {
    forall i :: 0 <= i < |s| ==> s[i] as int <= 0xFF
  }

  /** The name of the `DOMException` that `btoa` throws; its message text
      depends on the browser. */
  const InvalidCharacterError := "InvalidCharacterError"

  /** A user id without a colon (as RFC 7617 requires) is recovered together
      with the password from the credentials text. */
  lemma {:induction false} CredentialsRoundTrip(user: string, password: string)
    requires ':' !in user
    ensures SplitCredentials(BasicCredentials(user, password)) == (user, password)
    decreases |user|
  {
    var c := BasicCredentials(user, password);
    if |user| > 0 {
      assert c[1..] == BasicCredentials(user[1..], password);
      CredentialsRoundTrip(user[1..], password);
      assert user == [user[0]] + user[1..];
    } else {
      assert c[1..] == password;
    }
  }

  function AltText(alt: string): string {
    if alt == "" then "图片" else alt
  }

  /** `convertToMarkdown`: CommonMark image syntax, no escaping. */
  function ConvertToMarkdown(url: string, alt: string): (md: string)
    ensures StartsWith(md, "![" + AltText(alt) + "](") && md[|md| - 1] == ')'
    ensures |md| == |AltText(alt)| + |url| + 5 && md[|md| - 1 - |url|..|md| - 1] == url
  {
    "![" + AltText(alt) + "](" + url + ")"
  }

  /** The first index of `c` in `s`. */
  function IndexOf(s: string, c: char): (r: Option<nat>)
    ensures r.Some? ==> r.value < |s| && s[r.value] == c && c !in s[..r.value]
    ensures r.None? ==> c !in s
    decreases |s|
  {
    if |s| == 0 then None
    else if s[0] == c then Some(0)
    else match IndexOf(s[1..], c)
      case None => None
      case Some(i) =>
        assert s[..i + 1] == [s[0]] + s[1..][..i];
        Some(i + 1)
  }

  /** Reads alt text and destination back from `![alt](url)`. */
  function ParseMarkdownImage(md: string): Option<(string, string)> {
    if |md| < 5 || md[..2] != "![" || md[|md| - 1] != ')' then None
    else
      var inner := md[2..|md| - 1];
      match IndexOf(inner, ']')
      case None => None
      case Some(i) =>
        if i + 1 < |inner| && inner[i + 1] == '(' then Some((inner[..i], inner[i + 2..])) else None
  }

  /** The Markdown text gives back its alt text and URL whenever the alt text
      has no closing bracket (the source escapes nothing). */
  lemma MarkdownRoundTrip(url: string, alt: string)
    requires ']' !in alt
    ensures ParseMarkdownImage(ConvertToMarkdown(url, alt)) == Some((AltText(alt), url))
  {
    var a := AltText(alt);
    assert ']' !in "图片";
    var md := ConvertToMarkdown(url, alt);
    var inner := md[2..|md| - 1];
    assert inner == a + "](" + url;
    assert inner[..|a|] == a;
    assert inner[|a|] == ']';
    assert IndexOf(inner, ']') == Some(|a|);
    assert inner[|a| + 2..] == url;
  }

  // ---------------------------------------------------------------------
  // Provider adapters
  // ---------------------------------------------------------------------

  /** `uploadToSpecificImageBed`'s dispatch: an unknown type is custom. */
  function ProviderOf(kind: string): (p: Provider)
    ensures p == ImgBB <==> kind == "imgbb"
    ensures p == SMMS <==> kind == "smms"
    ensures p == Chevereto <==> kind == "chevereto"
    ensures p == Lsky <==> kind == "lsky"
    ensures p == Custom <==> kind != "imgbb" && kind != "smms" && kind != "chevereto" && kind != "lsky"
  {
    match kind
    case "imgbb" => ImgBB
    case "smms" => SMMS
    case "chevereto" => Chevereto
    case "lsky" => Lsky
    case _ => Custom
  }

  /** The provider name that starts every error message of an adapter. */
  function Label(p: Provider): string {
    match p
    case ImgBB => "ImgBB"
    case SMMS => "SM.MS"
    case Chevereto => "Chevereto"
    case Lsky => "Lsky"
    case Custom => "自定义图床"
  }

  predicate IsSuccessStatus(status: nat) {
    200 <= status < 300
  }

  /** `result.data && result.data.url`, "" when either is missing. */
  function DataUrl(e: Envelope): string {
    if e.data.Some? && e.data.value.url.Some? then e.data.value.url.value else ""
  }

  /** The custom adapter's URL: `result.url`, else `result.data.url`, else
      `result.link`, else `result.src` (the first truthy one). */
  function CustomImageUrl(e: Envelope): (url: string)
    ensures url == FirstTruthy([e.url, DataUrl(e), e.link, e.src])
  {
    var fields := [e.url, DataUrl(e), e.link, e.src];
    assert fields[1..][1..][1..] == [e.src] && [e.src][1..] == [];
    assert FirstTruthy(fields[1..][1..][1..]) == e.src;
    assert fields[1..][1..] == [e.link, e.src];
    assert FirstTruthy(fields[1..][1..]) == if e.link != "" then e.link else e.src;
    assert fields[1..] == [DataUrl(e), e.link, e.src];
    if e.url != "" then e.url
    else if DataUrl(e) != "" then DataUrl(e)
    else if e.link != "" then e.link
    else if e.src != "" then e.src
    else ""
  }

  /** The provider's own success flag in a 2xx response. */
  predicate Accepts(p: Provider, e: Envelope) {
    match p
    case ImgBB => e.success
    case SMMS => e.success
    case Chevereto => e.statusCode == Some(200)
    case Lsky => e.status
    case Custom => CustomImageUrl(e) != ""
  }

  /** The message an adapter rejects with when its success flag is off. */
  function Refusal(p: Provider, e: Envelope): string {
    match p
    case ImgBB => if e.errorMessage != "" then e.errorMessage else "ImgBB上传失败"
    case SMMS => if e.message != "" then e.message else "SM.MS上传失败"
    case Chevereto => if e.errorMessage != "" then e.errorMessage else "Chevereto上传失败"
    case Lsky => if e.message != "" then e.message else "Lsky上传失败"
    case Custom => "无法从响应中获取图片URL"
  }

  /** The load / error / timeout handlers of one image-host adapter. */
  function HostUpload(p: Provider, file: File, outcome: HttpOutcome): (r: Result<Uploaded, string>)
    ensures r.Success? <==>
      outcome.Loaded? && IsSuccessStatus(outcome.status) && outcome.body.Json?
      && Accepts(p, outcome.body.envelope) && (p == Custom || outcome.body.envelope.data.Some?)
    ensures r.Success? ==> r.value.fileName == file.name && r.value.originalName == file.name && r.value.size == file.size
    ensures r.Success? && p == Custom ==> r.value.url != "" && r.value.url == CustomImageUrl(outcome.body.envelope)
    ensures r.Success? && p != Custom ==> r.value.url == Interpolated(outcome.body.envelope.data.value.url)
    ensures outcome.NetworkError? ==> r == Failure(Label(p) + "上传网络错误")
    ensures outcome.TimedOut? ==> r == Failure(Label(p) + "上传超时")
    ensures outcome.Loaded? && !IsSuccessStatus(outcome.status) ==>
      r == Failure(Label(p) + "上传失败: " + NatToString(outcome.status) + " " + outcome.statusText)
    ensures outcome.Loaded? && IsSuccessStatus(outcome.status) && outcome.body.Json? && !Accepts(p, outcome.body.envelope) ==>
      r == Failure(Refusal(p, outcome.body.envelope))
    // the `catch` around the parse: a body that is not JSON, or a provider
    // record without `data`
    ensures outcome.Loaded? && IsSuccessStatus(outcome.status) && outcome.body.Unparseable? ==>
      r == Failure(Label(p) + "响应解析失败")
    ensures (outcome.Loaded? && IsSuccessStatus(outcome.status) && outcome.body.Json? && Accepts(p, outcome.body.envelope)
             && p != Custom && outcome.body.envelope.data.None?) ==>
      r == Failure(Label(p) + "响应解析失败")
  {
    match outcome
    case NetworkError => Failure(Label(p) + "上传网络错误")
    case TimedOut => Failure(Label(p) + "上传超时")
    case Loaded(status, statusText, body) =>
      if !IsSuccessStatus(status) then Failure(Label(p) + "上传失败: " + NatToString(status) + " " + statusText)
      else match body
        case Unparseable => Failure(Label(p) + "响应解析失败")
        case Json(e) =>
          if !Accepts(p, e) then Failure(Refusal(p, e))
          else if p == Custom then Success(Uploaded(CustomImageUrl(e), file.name, file.name, file.size))
          // `result.data.url` with no `data` throws inside the parse `try`
          else if e.data.None? then Failure(Label(p) + "响应解析失败")
          else Success(Uploaded(Interpolated(e.data.value.url), file.name, file.name, file.size))
  }

  /** `uploadToSpecificImageBed`: the adapter chosen by the host's type. */
  function UploadToSpecificImageBed(file: File, bed: ImageBed, outcome: HttpOutcome): (r: Result<Uploaded, string>)
    ensures r.Success? ==> r.value.originalName == file.name && r.value.size == file.size
    ensures ProviderOf(bed.kind) == Custom && r.Success? ==> r.value.url != ""
  {
    HostUpload(ProviderOf(bed.kind), file, outcome)
  }

  /** `uploadToSingleImageBed`: the legacy single host, which needs an API
      URL and key (its `enabled` flag is not consulted). */
  function UploadToSingleImageBed(bed: ImageBed, file: File, outcome: HttpOutcome): (r: Result<Uploaded, string>)
    ensures bed.apiUrl == "" || bed.apiKey == "" ==> r == Failure("图床配置不完整")
    ensures bed.apiUrl != "" && bed.apiKey != "" ==> r == UploadToSpecificImageBed(file, bed, outcome)
  {
    if bed.apiUrl == "" || bed.apiKey == "" then Failure("图床配置不完整")
    else UploadToSpecificImageBed(file, bed, outcome)
  }

  /** `uploadToWebDAV`: PUT to `serverUrl + uploadPath + '/' + fileName`
      under a generated name; on a 2xx status the file is announced at
      `publicUrl + '/' + fileName`. */
  function WebDavUpload(cfg: WebDavConfig, file: File, timestamp: nat, token: string, outcome: HttpOutcome): (r: Result<Uploaded, string>)
    ensures r.Success? <==>
      && cfg.serverUrl != "" && cfg.username != "" && cfg.password != ""
      && Latin1(BasicCredentials(cfg.username, cfg.password))
      && outcome.Loaded? && IsSuccessStatus(outcome.status)
    ensures cfg.serverUrl == "" || cfg.username == "" || cfg.password == "" ==> r == Failure("WebDAV 配置不完整")
    // `btoa` throws before any transfer
    ensures (cfg.serverUrl != "" && cfg.username != "" && cfg.password != ""
             && !Latin1(BasicCredentials(cfg.username, cfg.password))) ==>
      r == Failure(InvalidCharacterError)
    ensures (cfg.serverUrl != "" && cfg.username != "" && cfg.password != ""
             && Latin1(BasicCredentials(cfg.username, cfg.password)) && outcome.NetworkError?) ==>
      r == Failure("WebDAV 上传网络错误")
    ensures (cfg.serverUrl != "" && cfg.username != "" && cfg.password != ""
             && Latin1(BasicCredentials(cfg.username, cfg.password)) && outcome.TimedOut?) ==>
      r == Failure("WebDAV 上传超时")
    ensures (cfg.serverUrl != "" && cfg.username != "" && cfg.password != ""
             && Latin1(BasicCredentials(cfg.username, cfg.password))
             && outcome.Loaded? && !IsSuccessStatus(outcome.status)) ==>
      r == Failure("WebDAV 上传失败: " + NatToString(outcome.status) + " " + outcome.statusText)
    ensures r.Success? ==>
      && r.value.fileName == UniqueFileName(file.name, timestamp, token)
      && r.value.url == Interpolated(cfg.publicUrl) + "/" + r.value.fileName
      && Extension(r.value.fileName) == Extension(file.name)
      && r.value.originalName == file.name && r.value.size == file.size
  {
    if cfg.serverUrl == "" || cfg.username == "" || cfg.password == "" then Failure("WebDAV 配置不完整")
    else
      var fileName := UniqueFileName(file.name, timestamp, token);
      if !Latin1(BasicCredentials(cfg.username, cfg.password)) then Failure(InvalidCharacterError)
      else match outcome
      case NetworkError => Failure("WebDAV 上传网络错误")
      case TimedOut => Failure("WebDAV 上传超时")
      case Loaded(status, statusText, _) =>
        if IsSuccessStatus(status) then Success(Uploaded(Interpolated(cfg.publicUrl) + "/" + fileName, fileName, file.name, file.size))
        else Failure("WebDAV 上传失败: " + NatToString(status) + " " + statusText)
  }


  // ---------------------------------------------------------------------
  // Choosing and ordering hosts
  // ---------------------------------------------------------------------

  /** `imageBeds.filter(bed => bed.enabled)` */
  function EnabledBeds(beds: seq<ImageBed>): seq<ImageBed>
    decreases |beds|
  {
    if |beds| == 0 then []
    else (if beds[0].enabled then [beds[0]] else []) + EnabledBeds(beds[1..])
  }

  /** The filter keeps every enabled host as often as the list has it, and
      nothing else. */
  lemma {:induction false} EnabledBedsCounts(beds: seq<ImageBed>)
    ensures forall b :: multiset(EnabledBeds(beds))[b] == if b.enabled then multiset(beds)[b] else 0
    decreases |beds|
  {
    if |beds| > 0 {
      EnabledBedsCounts(beds[1..]);
      assert beds == [beds[0]] + beds[1..];
    }
  }

  /** `sub` is `s` with some elements left out and the others in their order. */
  predicate IsSubsequence<T(==)>(sub: seq<T>, s: seq<T>)
    decreases |s|
  {
    if |sub| == 0 then true
    else if |s| == 0 then false
    else (sub[0] == s[0] && IsSubsequence(sub[1..], s[1..])) || IsSubsequence(sub, s[1..])
  }

  /** The filter keeps the configuration order. */
  lemma {:induction false} EnabledBedsInOrder(beds: seq<ImageBed>)
    ensures IsSubsequence(EnabledBeds(beds), beds)
    decreases |beds|
  {
    if |beds| > 0 {
      EnabledBedsInOrder(beds[1..]);
      var r := EnabledBeds(beds);
      if beds[0].enabled {
        assert r[0] == beds[0] && r[1..] == EnabledBeds(beds[1..]);
      } else {
        assert r == EnabledBeds(beds[1..]);
      }
    }
  }

  /** Taking the enabled hosts and taking the hosts of one priority commute. */
  lemma {:induction false} EnabledBedsWithPriority(beds: seq<ImageBed>, p: int)
    ensures WithPriority(EnabledBeds(beds), p) == EnabledBeds(WithPriority(beds, p))
    decreases |beds|
  {
    if |beds| > 0 {
      EnabledBedsWithPriority(beds[1..], p);
      var b := beds[0];
      var e := EnabledBeds(beds[1..]);
      var w := WithPriority(beds[1..], p);
      if b.enabled {
        assert EnabledBeds(beds) == [b] + e;
        assert ([b] + e)[1..] == e;
      } else {
        assert EnabledBeds(beds) == e;
      }
      if b.priority == p {
        assert WithPriority(beds, p) == [b] + w;
        assert ([b] + w)[1..] == w;
      } else {
        assert WithPriority(beds, p) == w;
      }
    }
  }

  /** The filter is empty exactly when no host is enabled. */
  lemma {:induction false} EnabledBedsEmpty(beds: seq<ImageBed>)
    ensures EnabledBeds(beds) == [] <==> forall i :: 0 <= i < |beds| ==> !beds[i].enabled
    decreases |beds|
  {
    if |beds| > 0 {
      EnabledBedsEmpty(beds[1..]);
      forall i | 1 <= i < |beds|
        ensures beds[i] == beds[1..][i - 1]
      {
      }
    }
  }

  predicate SortedByPriority(s: seq<ImageBed>) {
    forall i, j :: 0 <= i < j < |s| ==> s[i].priority <= s[j].priority
  }

  /** The hosts of `s` with priority `p`, in their order in `s`. */
  function WithPriority(s: seq<ImageBed>, p: int): seq<ImageBed>
    decreases |s|
  {
    if |s| == 0 then [] else (if s[0].priority == p then [s[0]] else []) + WithPriority(s[1..], p)
  }

  /** Places `b` before the first host whose priority is not smaller. */
  function InsertByPriority(b: ImageBed, s: seq<ImageBed>): seq<ImageBed>
    decreases |s|
  {
    if |s| == 0 || b.priority <= s[0].priority then [b] + s
    else [s[0]] + InsertByPriority(b, s[1..])
  }

  /** `.sort((a, b) => a.priority - b.priority)`: a stable sort, as
      `Array.prototype.sort` is required to be (ECMA-262, section 23.1.3.30). */
  function SortByPriority(s: seq<ImageBed>): seq<ImageBed>
    decreases |s|
  {
    if |s| == 0 then [] else InsertByPriority(s[0], SortByPriority(s[1..]))
  }

  lemma {:induction false} InsertByPriorityPermutes(b: ImageBed, s: seq<ImageBed>)
    ensures multiset(InsertByPriority(b, s)) == multiset{b} + multiset(s)
    decreases |s|
  {
    if |s| > 0 && b.priority > s[0].priority {
      InsertByPriorityPermutes(b, s[1..]);
      assert s == [s[0]] + s[1..];
    }
  }

  /** Every host of `s` has priority at least `p`. */
  predicate AtLeast(s: seq<ImageBed>, p: int) {
    forall i :: 0 <= i < |s| ==> p <= s[i].priority
  }

  lemma ConsSorted(b: ImageBed, s: seq<ImageBed>)
    requires SortedByPriority(s) && AtLeast(s, b.priority)
    ensures SortedByPriority([b] + s)
  {
    var r := [b] + s;
    forall i, j | 0 <= i < j < |r| ensures r[i].priority <= r[j].priority {
      assert r[j] == s[j - 1];
      if i > 0 { assert r[i] == s[i - 1]; }
    }
  }

  lemma {:induction false} InsertByPriorityAtLeast(b: ImageBed, s: seq<ImageBed>, p: int)
    requires AtLeast(s, p) && p <= b.priority
    ensures AtLeast(InsertByPriority(b, s), p)
    decreases |s|
  {
    if |s| > 0 && b.priority > s[0].priority {
      InsertByPriorityAtLeast(b, s[1..], p);
      var t := InsertByPriority(b, s[1..]);
      assert InsertByPriority(b, s) == [s[0]] + t;
    }
  }

  lemma {:induction false} InsertByPrioritySorted(b: ImageBed, s: seq<ImageBed>)
    requires SortedByPriority(s)
    ensures SortedByPriority(InsertByPriority(b, s))
    decreases |s|
  {
    if |s| == 0 || b.priority <= s[0].priority {
      ConsSorted(b, s);
    } else {
      var t := InsertByPriority(b, s[1..]);
      assert SortedByPriority(s[1..]);
      assert AtLeast(s[1..], s[0].priority);
      InsertByPrioritySorted(b, s[1..]);
      InsertByPriorityAtLeast(b, s[1..], s[0].priority);
      ConsSorted(s[0], t);
    }
  }

  lemma {:induction false} InsertByPriorityStable(b: ImageBed, s: seq<ImageBed>, p: int)
    ensures WithPriority(InsertByPriority(b, s), p) == (if b.priority == p then [b] else []) + WithPriority(s, p)
    decreases |s|
  {
    var r := InsertByPriority(b, s);
    if |s| == 0 || b.priority <= s[0].priority {
      assert r[1..] == s;
    } else {
      var t := InsertByPriority(b, s[1..]);
      InsertByPriorityStable(b, s[1..], p);
      assert r[1..] == t;
    }
  }

  lemma {:induction false} SortByPrioritySorted(s: seq<ImageBed>)
    ensures SortedByPriority(SortByPriority(s))
    decreases |s|
  {
    if |s| > 0 {
      SortByPrioritySorted(s[1..]);
      InsertByPrioritySorted(s[0], SortByPriority(s[1..]));
    }
  }

  lemma {:induction false} SortByPriorityPermutes(s: seq<ImageBed>)
    ensures multiset(SortByPriority(s)) == multiset(s)
    decreases |s|
  {
    if |s| > 0 {
      SortByPriorityPermutes(s[1..]);
      InsertByPriorityPermutes(s[0], SortByPriority(s[1..]));
      assert s == [s[0]] + s[1..];
    }
  }

  lemma {:induction false} SortByPriorityStable(s: seq<ImageBed>, p: int)
    ensures WithPriority(SortByPriority(s), p) == WithPriority(s, p)
    decreases |s|
  {
    if |s| > 0 {
      SortByPriorityStable(s[1..], p);
      InsertByPriorityStable(s[0], SortByPriority(s[1..]), p);
    }
  }

  /** Sorting by priority yields an ascending permutation in which hosts of
      equal priority keep their relative configuration order. */
  lemma SortByPriorityCorrect(s: seq<ImageBed>)
    ensures SortedByPriority(SortByPriority(s))
    ensures multiset(SortByPriority(s)) == multiset(s)
    ensures forall p :: WithPriority(SortByPriority(s), p) == WithPriority(s, p)
  {
    SortByPrioritySorted(s);
    SortByPriorityPermutes(s);
    forall p ensures WithPriority(SortByPriority(s), p) == WithPriority(s, p) {
      SortByPriorityStable(s, p);
    }
  }

  /** The first steps of `uploadToMultipleImageBeds`: no host configured,
      no host enabled, or the enabled hosts sorted by priority. */
  function Candidates(beds: seq<ImageBed>): (r: Result<seq<ImageBed>, string>)
    ensures |beds| == 0 ==> r == Failure(NoHostConfigured)
    ensures |beds| > 0 && (forall i :: 0 <= i < |beds| ==> !beds[i].enabled) ==> r == Failure(NoHostEnabled)
    ensures r.Success? ==> |r.value| > 0
  {
    if |beds| == 0 then Failure(NoHostConfigured)
    else
      var enabled := EnabledBeds(beds);
      EnabledBedsEmpty(beds);
      if |enabled| == 0 then Failure(NoHostEnabled)
      else
        SortByPriorityCorrect(enabled);
        Success(SortByPriority(enabled))
  }

  /** The hosts the loop may try are exactly the enabled ones of the
      configuration, each as often as configured, in ascending priority,
      hosts of equal priority in configuration order; the list is refused
      only when no host is configured or none is enabled. */
  lemma CandidatesAreEnabledHostsByPriority(beds: seq<ImageBed>)
    ensures Candidates(beds).Failure? <==> forall i :: 0 <= i < |beds| ==> !beds[i].enabled
    ensures Candidates(beds).Success? ==>
      var r := Candidates(beds).value;
      && SortedByPriority(r)
      && (forall i :: 0 <= i < |r| ==> r[i].enabled)
      && (forall b :: multiset(r)[b] == if b.enabled then multiset(beds)[b] else 0)
      && (forall p :: WithPriority(r, p) == EnabledBeds(WithPriority(beds, p)))
  {
    var enabled := EnabledBeds(beds);
    EnabledBedsEmpty(beds);
    EnabledBedsCounts(beds);
    if enabled != [] {
      SortByPriorityCorrect(enabled);
      var sorted := SortByPriority(enabled);
      forall i | 0 <= i < |sorted| ensures sorted[i].enabled {
        assert sorted[i] in multiset(enabled);
      }
      forall p ensures WithPriority(sorted, p) == EnabledBeds(WithPriority(beds, p)) {
        EnabledBedsWithPriority(beds, p);
      }
    }
  }

  /** Random reordering driven by the random draws `picks`: each draw picks
      the next host among those left. Any draws give a permutation. */
  function Shuffle<T>(s: seq<T>, picks: seq<int>): (r: seq<T>)
    ensures |r| == |s| && multiset(r) == multiset(s)
    decreases |s|
  {
    if |s| == 0 then []
    else
      var k := if |picks| > 0 then picks[0] % |s| else 0;
      var rest := Shuffle(s[..k] + s[k + 1..], if |picks| > 0 then picks[1..] else []);
      assert s == s[..k] + [s[k]] + s[k + 1..];
      [s[k]] + rest
  }

  /** `selectImageBedsByStrategy`: 'random' shuffles, 'priority',
      'round-robin' and every other method keep the given order. */
  function SelectImageBedsByStrategy(beds: seq<ImageBed>, strategy: Strategy, picks: seq<int>): (r: seq<ImageBed>)
    ensures strategy.selection != "random" ==> r == beds
    ensures |r| == |beds| && multiset(r) == multiset(beds)
  {
    match strategy.selection
    case "priority" => beds
    case "round-robin" => beds
    case "random" => Shuffle(beds, picks)
    case _ => beds
  }

  /** The order in which the hosts are tried. */
  function TryOrder(beds: seq<ImageBed>, strategy: Strategy, picks: seq<int>): seq<ImageBed>
    requires Candidates(beds).Success?
  {
    SelectImageBedsByStrategy(Candidates(beds).value, strategy, picks)
  }

  /** The result the j-th host would give, where `respond(j)` is what the
      j-th attempted transfer reports. */
  function AttemptResults(order: seq<ImageBed>, file: File, respond: nat -> HttpOutcome): (rs: seq<Result<Uploaded, string>>)
    ensures |rs| == |order|
    ensures forall j :: 0 <= j < |order| ==> rs[j] == UploadToSpecificImageBed(file, order[j], respond(j))
  {
    seq(|order|, j requires 0 <= j < |order| => UploadToSpecificImageBed(file, order[j], respond(j)))
  }

  // ---------------------------------------------------------------------
  // The failover loop
  // ---------------------------------------------------------------------

  /** What trying the results `tried` in order ends with: `attempts` hosts
      were tried and every one before the last failed; a success is returned
      as it is, a failure is wrapped in the "all failed" message and ends the
      loop only at the last host or when failover is off; one delay separates
      consecutive attempts. */
  ghost predicate FailoverOutcome(
    tried: seq<Result<Uploaded, string>>, failover: bool,
    r: Result<Uploaded, string>, attempts: nat, delays: nat)
  {
    && 1 <= attempts <= |tried|
    && delays == attempts - 1
    && (forall j :: 0 <= j < attempts - 1 ==> tried[j].Failure?)
    && (tried[attempts - 1].Success? ==> r == tried[attempts - 1])
    && (tried[attempts - 1].Failure? ==>
          r == Failure(AllHostsFailed + tried[attempts - 1].error) && (attempts == |tried| || !failover))
    && (!failover ==> attempts == 1)
  }

  /** The failover loop's outcome is determined by the attempt results: the
      result, the number of attempts and the number of delays. */
  lemma FailoverOutcomeDeterministic(
    tried: seq<Result<Uploaded, string>>, failover: bool,
    r1: Result<Uploaded, string>, attempts1: nat, delays1: nat,
    r2: Result<Uploaded, string>, attempts2: nat, delays2: nat)
    requires FailoverOutcome(tried, failover, r1, attempts1, delays1)
    requires FailoverOutcome(tried, failover, r2, attempts2, delays2)
    ensures r1 == r2 && attempts1 == attempts2 && delays1 == delays2
  {
  }

  /** The failover loop of `uploadToMultipleImageBeds` over the hosts
      `order`: tries them in turn and resolves with the first success; after
      a failure it waits (counted in `delays`) and moves on only when
      failover is enabled and hosts remain, otherwise it rejects with the
      last host's message. */
  method Failover(order: seq<ImageBed>, failover: bool, file: File, respond: nat -> HttpOutcome)
    returns (r: Result<Uploaded, string>, attempts: nat, delays: nat)
    requires |order| > 0
    ensures FailoverOutcome(AttemptResults(order, file, respond), failover, r, attempts, delays)
  {
    ghost var tried := AttemptResults(order, file, respond);
    var n := |order|;
    var i := 0;
    var done := false;
    r, attempts, delays := Failure(""), 0, 0;
    while !done
      invariant 0 <= i < n
      invariant attempts == (if done then i + 1 else i) && delays == i
      invariant forall j :: 0 <= j < i ==> tried[j].Failure?
      invariant i > 0 ==> failover
      invariant done ==> (tried[i].Success? ==> r == tried[i])
      invariant done ==> (tried[i].Failure? ==>
        r == Failure(AllHostsFailed + tried[i].error) && (i == n - 1 || !failover))
      decreases n - i + (if done then 0 else 1)
    {
      var result := UploadToSpecificImageBed(file, order[i], respond(i));
      assert result == tried[i];
      attempts := attempts + 1;
      if result.Success? {
        r, done := result, true;
      } else if i < n - 1 && failover {
        delays := delays + 1;  // await this.delay(retryDelay)
        i := i + 1;
      } else {
        r, done := Failure(AllHostsFailed + result.error), true;
      }
    }
  }

  /** What `uploadToMultipleImageBeds` ends with: the filter's error after
      no attempt when no host is usable, otherwise the failover outcome over
      the hosts in the strategy's order. */
  ghost predicate MultipleUploadOutcome(
    config: UploadConfig, file: File, respond: nat -> HttpOutcome, picks: seq<int>,
    r: Result<Uploaded, string>, attempts: nat, delays: nat)
  {
    && (Candidates(config.imageBeds).Failure? ==>
          r == Failure(Candidates(config.imageBeds).error) && attempts == 0 && delays == 0)
    && (Candidates(config.imageBeds).Success? ==>
          FailoverOutcome(AttemptResults(TryOrder(config.imageBeds, config.strategy, picks), file, respond),
                          config.strategy.enableFailover, r, attempts, delays))
  }

  /** `uploadToMultipleImageBeds`: rejects when no host is usable, otherwise
      runs the failover loop over the hosts in the strategy's order. */
  method UploadToMultipleImageBeds(config: UploadConfig, file: File, respond: nat -> HttpOutcome, picks: seq<int>)
    returns (r: Result<Uploaded, string>, attempts: nat, delays: nat)
    ensures Candidates(config.imageBeds).Failure? ==>
      r == Failure(Candidates(config.imageBeds).error) && attempts == 0 && delays == 0
    ensures MultipleUploadOutcome(config, file, respond, picks, r, attempts, delays)
  {
    var candidates := Candidates(config.imageBeds);
    if candidates.Failure? {
      return Failure(candidates.error), 0, 0;
    }
    var order := SelectImageBedsByStrategy(candidates.value, config.strategy, picks);
    assert order == TryOrder(config.imageBeds, config.strategy, picks);
    r, attempts, delays := Failover(order, config.strategy.enableFailover, file, respond);
  }

  // ---------------------------------------------------------------------
  // Entry points
  // ---------------------------------------------------------------------

  /** Adds the Markdown text to a resolved upload. */
  function WithMarkdown(r: Result<Uploaded, string>, file: File): Result<UploadedImage, string> {
    match r
    case Success(u) => Success(UploadedImage(u, ConvertToMarkdown(u.url, file.name)))
    case Failure(e) => Failure(e)
  }

  /** `file.size > maxSize`; a comparison with an unset limit is false. */
  predicate TooLarge(file: File, maxSize: Option<int>) {
    maxSize.Some? && file.size > maxSize.value
  }

  /** `uploadImage`: rejects, in this order, a disabled service, a non-image
      MIME type, a file over `maxSize` and an unknown upload method; then
      uploads and adds the Markdown text. `formatFileSize` is a parameter. */
  method UploadImage(
    config: UploadConfig, file: File, timestamp: nat, token: string,
    formatFileSize: int -> string, respond: nat -> HttpOutcome, picks: seq<int>)
    returns (r: Result<UploadedImage, string>)
    ensures !config.enabled ==> r == Failure("图片上传功能已禁用")
    ensures config.enabled && !StartsWith(file.mimeType, "image/") ==> r == Failure("只支持图片文件")
    ensures config.enabled && StartsWith(file.mimeType, "image/") && TooLarge(file, config.maxSize) ==>
      r == Failure("文件大小不能超过 " + formatFileSize(config.maxSize.value))
    ensures config.enabled && StartsWith(file.mimeType, "image/") && !TooLarge(file, config.maxSize) ==>
      && (config.uploadMethod != "webdav" && config.uploadMethod != "imagebed" ==> r == Failure("不支持的上传方式"))
      && (config.uploadMethod == "webdav" ==> r == WithMarkdown(WebDavUpload(config.webdav, file, timestamp, token, respond(0)), file))
      && (config.uploadMethod == "imagebed" && |config.imageBeds| == 0 ==>
            r == WithMarkdown(UploadToSingleImageBed(config.imageBed, file, respond(0)), file))
      && (config.uploadMethod == "imagebed" && |config.imageBeds| > 0 ==>
            exists u, attempts, delays :: MultipleUploadOutcome(config, file, respond, picks, u, attempts, delays)
                                          && r == WithMarkdown(u, file))
    ensures r.Success? ==>
      && config.enabled && StartsWith(file.mimeType, "image/") && !TooLarge(file, config.maxSize)
      && r.value.markdown == ConvertToMarkdown(r.value.upload.url, file.name)
      && r.value.upload.originalName == file.name && r.value.upload.size == file.size
  {
    if !config.enabled {
      return Failure("图片上传功能已禁用");
    }
    if !StartsWith(file.mimeType, "image/") {
      return Failure("只支持图片文件");
    }
    if TooLarge(file, config.maxSize) {
      return Failure("文件大小不能超过 " + formatFileSize(config.maxSize.value));
    }
    var result: Result<Uploaded, string>;
    if config.uploadMethod == "webdav" {
      result := WebDavUpload(config.webdav, file, timestamp, token, respond(0));
    } else if config.uploadMethod == "imagebed" {
      if |config.imageBeds| > 0 {
        var attempts, delays;
        result, attempts, delays := UploadToMultipleImageBeds(config, file, respond, picks);
        assert MultipleUploadOutcome(config, file, respond, picks, result, attempts, delays);
      } else {
        result := UploadToSingleImageBed(config.imageBed, file, respond(0));
      }
    } else {
      return Failure("不支持的上传方式");
    }
    r := WithMarkdown(result, file);
  }

  // ---------------------------------------------------------------------
  // Configuration check
  // ---------------------------------------------------------------------

  /** `isConfigValid`. */
  function IsConfigValid(config: UploadConfig): (valid: bool)
    ensures valid ==> config.enabled && (config.uploadMethod == "webdav" || config.uploadMethod == "imagebed")
    ensures config.uploadMethod == "webdav" ==>
      (valid <==> config.enabled && config.webdav.serverUrl != "" && config.webdav.username != ""
                  && config.webdav.password != "" && config.webdav.publicUrl.Some? && config.webdav.publicUrl.value != "")
    ensures config.uploadMethod == "imagebed" && |config.imageBeds| > 0 ==>
      (valid <==> config.enabled && (exists i :: 0 <= i < |config.imageBeds| && config.imageBeds[i].enabled
                                                   && config.imageBeds[i].apiUrl != "" && config.imageBeds[i].apiKey != ""))
    ensures config.uploadMethod == "imagebed" && |config.imageBeds| == 0 ==>
      (valid <==> config.enabled && config.imageBed.apiUrl != "" && config.imageBed.apiKey != "")
  {
    if !config.enabled then false
    else if config.uploadMethod == "webdav" then
      var w := config.webdav;
      w.serverUrl != "" && w.username != "" && w.password != "" && w.publicUrl.Some? && w.publicUrl.value != ""
    else if config.uploadMethod == "imagebed" then
      if |config.imageBeds| > 0 then
        exists i :: 0 <= i < |config.imageBeds| && config.imageBeds[i].enabled
                    && config.imageBeds[i].apiUrl != "" && config.imageBeds[i].apiKey != ""
      else config.imageBed.apiUrl != "" && config.imageBed.apiKey != ""
    else false
  }

  /** A configuration that `isConfigValid` accepts never fails an upload with
      a configuration error: WebDAV is complete, the legacy host has URL and
      key, and the host list has an enabled host. */
  lemma ValidConfigHasNoConfigurationError(config: UploadConfig, file: File, timestamp: nat, token: string, outcome: HttpOutcome)
    requires IsConfigValid(config)
    ensures config.uploadMethod == "webdav" ==>
      WebDavUpload(config.webdav, file, timestamp, token, outcome) != Failure("WebDAV 配置不完整")
    ensures config.uploadMethod == "imagebed" && |config.imageBeds| == 0 ==>
      UploadToSingleImageBed(config.imageBed, file, outcome) == UploadToSpecificImageBed(file, config.imageBed, outcome)
    ensures config.uploadMethod == "imagebed" && |config.imageBeds| > 0 ==> Candidates(config.imageBeds).Success?
  {
    if config.uploadMethod == "webdav" {
      var r := WebDavUpload(config.webdav, file, timestamp, token, outcome);
      if r.Failure? {
        match outcome
        case NetworkError =>
        case TimedOut =>
        case Loaded(status, text, _) =>
          var msg := "WebDAV 上传失败: " + NatToString(status) + " " + text;
          assert msg[7] != "WebDAV 配置不完整"[7];
      }
    }
    if config.uploadMethod == "imagebed" && |config.imageBeds| > 0 {
      EnabledBedsEmpty(config.imageBeds);
      var i :| 0 <= i < |config.imageBeds| && config.imageBeds[i].enabled
                && config.imageBeds[i].apiUrl != "" && config.imageBeds[i].apiKey != "";
    }
  }
}
