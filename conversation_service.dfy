/** The conversation client's pure pieces: its configuration, how it turns a
    reply-audio reference into a full URL, the multipart upload it sends and
    the diagnostics it reports, the metadata it reads from a HEAD probe, the
    download target it picks, and the test that decides whether the probed
    resource is a new file. The poll loop that drives them is in module
    AudioPolling. Network calls are outcomes given as parameters; clock
    readings and random suffixes are parameters too. */
module ConversationService {
  import opened Wrappers
  import opened Text

  const DefaultBaseUrl := "http://192.168.43.20:8000"
  const UploadTimeoutMs := 45000
  const ProbeTimeoutMs := 5000

  // ---------------------------------------------------------------------
  // Configuration

  /** One source of settings: the EXPO_PUBLIC_* environment or the packaged
      `extra` block. The empty string stands for an unset value, which
      JavaScript's `||` treats the same way. */
  datatype Settings = Settings(apiBaseUrl: string, apiToken: string, conversationPath: string)

  datatype Config = Config(baseURL: string, apiToken: string, conversationPath: string)

  /** The constructor's "ensure leading slash" step. */
  function NormalisePath(raw: string): (p: string)
    ensures StartsWith(p, "/") && EndsWith(p, raw)
    ensures |p| <= |raw| + 1
    ensures StartsWith(raw, "/") ==> p == raw
    ensures raw == "" ==> p == "/"
  {
    if StartsWith(raw, "/") then raw else "/" + raw
  }

  lemma NormalisePathIdempotent(raw: string)
    ensures NormalisePath(NormalisePath(raw)) == NormalisePath(raw)
  {
  }

  /** The constructor: environment first, then `extra`, then the built-in
      default for the base URL; the token has no default; the path is
      normalised. */
  function NewConfig(env: Settings, extra: Settings): (c: Config)
    ensures c.baseURL != ""
    ensures env.apiBaseUrl != "" ==> c.baseURL == env.apiBaseUrl
    ensures env.apiBaseUrl == "" && extra.apiBaseUrl != "" ==> c.baseURL == extra.apiBaseUrl
    ensures env.apiBaseUrl == "" && extra.apiBaseUrl == "" ==> c.baseURL == DefaultBaseUrl
    ensures c.apiToken == "" <==> env.apiToken == "" && extra.apiToken == ""
    ensures env.apiToken != "" ==> c.apiToken == env.apiToken
    ensures env.apiToken == "" ==> c.apiToken == extra.apiToken
    ensures StartsWith(c.conversationPath, "/")
    ensures env.conversationPath != "" ==> c.conversationPath == NormalisePath(env.conversationPath)
    ensures env.conversationPath == "" ==> c.conversationPath == NormalisePath(extra.conversationPath)
    ensures env.conversationPath == "" && extra.conversationPath == "" ==> c.conversationPath == "/"
  {
    Config(
      Or(Or(env.apiBaseUrl, extra.apiBaseUrl), DefaultBaseUrl),
      Or(env.apiToken, extra.apiToken),
      NormalisePath(Or(env.conversationPath, extra.conversationPath)))
  }

  /** A configuration the constructor can have produced. */
  predicate WellFormed(cfg: Config) {
    StartsWith(cfg.conversationPath, "/")
  }

  // ---------------------------------------------------------------------
  // URLs and request headers

  /** How checkAudioReady, headAudio and downloadAudio turn the reply-audio
      reference into a full URL. */
  function ResolveUrl(cfg: Config, audioUrl: string): (r: string)
    ensures EndsWith(r, audioUrl)
    ensures StartsWith(audioUrl, "http") ==> r == audioUrl
    ensures !StartsWith(audioUrl, "http") && StartsWith(audioUrl, "/") ==> r == cfg.baseURL + audioUrl
    ensures !StartsWith(audioUrl, "http") && !StartsWith(audioUrl, "/") ==>
              r == cfg.baseURL + cfg.conversationPath + "/" + audioUrl
  {
    if StartsWith(audioUrl, "http") then audioUrl
    else cfg.baseURL + (if StartsWith(audioUrl, "/") then "" else cfg.conversationPath + "/") + audioUrl
  }

  /** A reference that is not absolute always lands on a '/' right after the
      base URL, so the base URL is never glued to a bare segment. */
  lemma ResolvedPathIsRooted(cfg: Config, audioUrl: string)
    requires WellFormed(cfg)
    requires !StartsWith(audioUrl, "http")
    ensures StartsWith(ResolveUrl(cfg, audioUrl), cfg.baseURL)
    ensures |ResolveUrl(cfg, audioUrl)| > |cfg.baseURL| && ResolveUrl(cfg, audioUrl)[|cfg.baseURL|] == '/'
  {
    var r := ResolveUrl(cfg, audioUrl);
    if StartsWith(audioUrl, "/") {
      assert r == cfg.baseURL + audioUrl;
      assert r[|cfg.baseURL|] == audioUrl[0];
    } else {
      assert r == cfg.baseURL + (cfg.conversationPath + "/" + audioUrl);
      assert r[|cfg.baseURL|] == cfg.conversationPath[0];
    }
  }

  /** The cache-busting parameter of checkAudioReady and downloadAudio. */
  function StampParam(stamp: nat): string {
    "cb=" + Decimal(stamp)
  }

  /** The URL checkAudioReady probes and downloadAudio fetches. */
  function StampedUrl(cfg: Config, audioUrl: string, stamp: nat): (r: string)
    ensures StartsWith(r, ResolveUrl(cfg, audioUrl))
    ensures EndsWith(r, StampParam(stamp))
  {
    AppendQuery(ResolveUrl(cfg, audioUrl), StampParam(stamp))
  }

  /** The URL headAudio probes: a timestamp and a random suffix. */
  function ProbeUrl(cfg: Config, audioUrl: string, stamp: nat, rnd: string): (r: string)
    ensures StartsWith(r, ResolveUrl(cfg, audioUrl))
    ensures EndsWith(r, "&rnd=" + rnd)
  {
    AppendQuery(ResolveUrl(cfg, audioUrl), StampParam(stamp) + "&rnd=" + rnd)
  }

  /** After the resolved URL the probe carries exactly one separator, the
      cache-busting stamp and the random suffix. */
  lemma ProbeUrlCarriesStamp(cfg: Config, audioUrl: string, stamp: nat, rnd: string)
    ensures var full := ResolveUrl(cfg, audioUrl);
            ProbeUrl(cfg, audioUrl, stamp, rnd)[|full|..]
              == (if '?' in full then "&" else "?") + (StampParam(stamp) + "&rnd=" + rnd)
  {
    var full := ResolveUrl(cfg, audioUrl);
    assert ProbeUrl(cfg, audioUrl, stamp, rnd) == AppendQuery(full, StampParam(stamp) + "&rnd=" + rnd);
    AppendQueryAfterUrl(full, StampParam(stamp) + "&rnd=" + rnd);
  }

  /** The headers of every probe and download: caching defeated, and the
      bearer token only when one is configured. */
  function RequestHeaders(cfg: Config): (h: map<string, string>)
    ensures "Cache-Control" in h && h["Cache-Control"] == "no-cache"
    ensures "Pragma" in h && h["Pragma"] == "no-cache"
    ensures "Authorization" in h <==> cfg.apiToken != ""
    ensures "Authorization" in h ==> h["Authorization"] == "Bearer " + cfg.apiToken
    ensures |h.Keys| == if cfg.apiToken == "" then 2 else 3
  {
    var base := map["Cache-Control" := "no-cache", "Pragma" := "no-cache"];
    var h := if cfg.apiToken != "" then base["Authorization" := "Bearer " + cfg.apiToken] else base;
    assert base.Keys == {"Cache-Control", "Pragma"};
    assert cfg.apiToken != "" ==> h.Keys == {"Cache-Control", "Pragma", "Authorization"};
    h
  }

  // ---------------------------------------------------------------------
  // Upload

  /** `request.file`: a binary Blob/File, or an object that refers to a file by
      URI (Expo's `{ uri, name?, type?, mimeType? }`). "" stands for an
      absent property. */
  datatype FilePart =
    | BinaryPart
    | UriPart(uri: string, name: string, partType: string, mimeType: string)

  datatype ConversationRequest = ConversationRequest(file: FilePart, lang: string, targetLang: string)

  datatype MultipartForm = MultipartForm(file: FilePart, lang: string, targetLang: string)

  datatype PostRequest = PostRequest(url: string, authorization: Option<string>, form: MultipartForm, timeoutMs: nat)

  datatype Timings = Timings(sttTime: Option<real>, llmTime: Option<real>, ttsTime: Option<real>)

  datatype ConversationResponse = ConversationResponse(
    success: bool, transcript: string, replyText: string, replyAudioUrl: string, timings: Option<Timings>)

  /** What the transport reports when the POST fails: axios' `error.code`,
      `error.message` and, when a response arrived, its status. */
  datatype TransportError = TransportError(code: string, message: string, responseStatus: Option<int>)

  datatype PostOutcome = PostOk(data: ConversationResponse) | PostFailed(error: TransportError)

  /** The file name guessed for a URI part that has none. */
  function GuessedName(uri: string, stamp: nat): (name: string)
    ensures name != "" && '/' !in name
    ensures LastSegment(uri) != "" ==> name == LastSegment(uri) && EndsWith(uri, name)
    ensures LastSegment(uri) == "" ==> name == "recording_" + Decimal(stamp) + ".wav"
  {
    var fallback := "recording_" + Decimal(stamp) + ".wav";
    assert '/' !in fallback by {
      assert forall i | 0 <= i < |fallback| :: fallback[i] != '/' by {
        assert AllDigits(Decimal(stamp));
      }
    }
    Or(LastSegment(uri), fallback)
  }

  /** File-part normalisation: a URI part without a name gets the guessed
      name and a type (`type`, else `mimeType`, else audio/wav); everything
      else is sent as it came. */
  function NormaliseFilePart(f: FilePart, stamp: nat): (r: FilePart)
    ensures !(f.UriPart? && f.uri != "" && f.name == "") ==> r == f
    ensures f.UriPart? && f.uri != "" && f.name == "" ==>
              && r.UriPart? && r.uri == f.uri && r.mimeType == ""
              && r.name == GuessedName(f.uri, stamp)
              && r.partType != ""
              && (f.partType != "" ==> r.partType == f.partType)
              && (f.partType == "" && f.mimeType != "" ==> r.partType == f.mimeType)
              && (f.partType == "" && f.mimeType == "" ==> r.partType == "audio/wav")
  {
    match f
    case BinaryPart => f
    case UriPart(uri, name, partType, mimeType) =>
      if uri != "" && name == "" then
        UriPart(uri, GuessedName(uri, stamp), Or(Or(partType, mimeType), "audio/wav"), "")
      else f
  }

  /** Normalising is idempotent: a normalised part already has a name. */
  lemma NormaliseFilePartIdempotent(f: FilePart, stamp1: nat, stamp2: nat)
    ensures NormaliseFilePart(NormaliseFilePart(f, stamp1), stamp2) == NormaliseFilePart(f, stamp1)
  {
  }

  /** The three form fields; both languages default to "en". */
  function BuildForm(req: ConversationRequest, stamp: nat): (form: MultipartForm)
    ensures form.file == NormaliseFilePart(req.file, stamp)
    ensures form.lang != "" && form.targetLang != ""
    ensures req.lang != "" ==> form.lang == req.lang
    ensures req.lang == "" ==> form.lang == "en"
    ensures req.targetLang != "" ==> form.targetLang == req.targetLang
    ensures req.targetLang == "" ==> form.targetLang == "en"
  {
    MultipartForm(NormaliseFilePart(req.file, stamp), Or(req.lang, "en"), Or(req.targetLang, "en"))
  }

  /** The POST the client sends: to the base URL joined with the configured
      path, 45 seconds, with the bearer token when one is configured. */
  function UploadRequest(cfg: Config, req: ConversationRequest, stamp: nat): (p: PostRequest)
    ensures WellFormed(cfg) ==> StartsWith(p.url, cfg.baseURL) && |p.url| > |cfg.baseURL| && p.url[|cfg.baseURL|] == '/'
    ensures EndsWith(p.url, cfg.conversationPath)
    ensures |p.url| == |cfg.baseURL| + |cfg.conversationPath|
    ensures p.authorization.Some? <==> cfg.apiToken != ""
    ensures p.authorization.Some? ==> p.authorization.value == "Bearer " + cfg.apiToken
    ensures p.form == BuildForm(req, stamp) && p.timeoutMs == UploadTimeoutMs
  {
    var url := cfg.baseURL + cfg.conversationPath;
    assert WellFormed(cfg) ==> url[|cfg.baseURL|] == cfg.conversationPath[0];
    PostRequest(
      url,
      if cfg.apiToken != "" then Some("Bearer " + cfg.apiToken) else None,
      BuildForm(req, stamp),
      UploadTimeoutMs)
  }

  /** The value passed to onProgress for one progress event, or None when the
      event has no (or a zero) total: `Math.round(loaded / total * 100)`,
      computed exactly. */
  function UploadProgress(loaded: nat, total: nat): (r: Option<int>)
    ensures r.None? <==> total == 0
    ensures r.Some? ==> r.value * (2 * total) <= 200 * loaded + total < r.value * (2 * total) + 2 * total
    ensures r.Some? && loaded <= total ==> 0 <= r.value <= 100
  {
    if total == 0 then None
    else
      var p := (200 * loaded + total) / (2 * total);
      RoundBounds(loaded, total, p);
      Some(p)
  }

  lemma RoundBounds(loaded: nat, total: nat, p: int)
    requires total > 0 && p == (200 * loaded + total) / (2 * total)
    ensures 0 <= p && p * (2 * total) <= 200 * loaded + total < p * (2 * total) + 2 * total
    ensures loaded <= total ==> p <= 100
  {
    var n := 200 * loaded + total;
    var d := 2 * total;
    DivBounds(n, d);
    if loaded <= total && p > 100 {
      MulMonotone(101, p, d);
    }
  }

  lemma DivBounds(n: nat, d: nat)
    requires d > 0
    ensures 0 <= n / d && (n / d) * d <= n < (n / d) * d + d
  {
  }

  lemma QuotientOrder(a: int, b: int, d: nat)
    requires d > 0 && a * d < b * d + d
    ensures a <= b
  {
    if a > b {
      assert (b + 1) * d == b * d + d;
      MulMonotone(b + 1, a, d);
    }
  }

  /** More bytes sent never lowers the reported percentage. */
  lemma UploadProgressMonotone(loaded1: nat, loaded2: nat, total: nat)
    requires loaded1 <= loaded2 && total > 0
    ensures UploadProgress(loaded1, total).value <= UploadProgress(loaded2, total).value
  {
    var p1 := UploadProgress(loaded1, total).value;
    var p2 := UploadProgress(loaded2, total).value;
    var d := 2 * total;
    assert p1 * d < p2 * d + d;
    QuotientOrder(p1, p2, d);
  }

  lemma UploadProgressHalf()
    ensures UploadProgress(50, 100) == Some(50)
  {
  }

  const FailurePrefix := "Upload failed"
  const StatusPrefix := "Upload failed (status "

  /** The message of the Error uploadConversation throws. */
  function UploadErrorText(baseURL: string, e: TransportError): (text: string)
    ensures e.code == "ECONNREFUSED" ==>
              text == "Cannot reach backend at " + baseURL + ". Is it running & reachable from device?"
    ensures e.code != "ECONNREFUSED" && e.message == "Network Error" ==>
              text == "Network Error contacting " + baseURL + ". Check LAN IP, tunnel, or firewall."
    ensures e.code != "ECONNREFUSED" && e.message != "Network Error" ==> StartsWith(text, FailurePrefix)
    ensures e.code != "ECONNREFUSED" && e.message != "Network Error" && e.responseStatus.Some? ==>
              text == StatusPrefix + IntString(e.responseStatus.value) + ")"
    ensures e.code != "ECONNREFUSED" && e.message != "Network Error" && e.responseStatus.None? ==>
              text == (if e.message != "" then FailurePrefix + ": " + e.message else FailurePrefix)
  {
    var detail :=
      if e.responseStatus.Some? then FailurePrefix + " (status " + IntString(e.responseStatus.value) + ")"
      else if e.message != "" then FailurePrefix + ": " + e.message
      else FailurePrefix;
    if e.code == "ECONNREFUSED" then
      "Cannot reach backend at " + baseURL + ". Is it running & reachable from device?"
    else if e.message == "Network Error" then
      "Network Error contacting " + baseURL + ". Check LAN IP, tunnel, or firewall."
    else detail
  }

  /** A caller can read the HTTP status back out of a status diagnostic. */
  lemma UploadErrorStatusReadable(baseURL: string, e: TransportError)
    requires e.code != "ECONNREFUSED" && e.message != "Network Error" && e.responseStatus.Some?
    ensures StartsWith(UploadErrorText(baseURL, e), StatusPrefix)
    ensures ParseInt(UploadErrorText(baseURL, e)[|StatusPrefix|..]) == Num(e.responseStatus.value)
  {
    var s := e.responseStatus.value;
    var text := UploadErrorText(baseURL, e);
    assert text[|StatusPrefix|..] == IntString(s) + ")";
    ParseIntString(s, ")");
  }

  /** uploadConversation: the server's JSON comes back as it is (its
      `success` flag is not inspected); a transport failure becomes the
      diagnostic text. */
  function Upload(cfg: Config, outcome: PostOutcome): (r: Result<ConversationResponse, string>)
    ensures r.Success? <==> outcome.PostOk?
    ensures outcome.PostOk? ==> r.value == outcome.data
    ensures outcome.PostFailed? ==> r.error == UploadErrorText(cfg.baseURL, outcome.error) && r.error != ""
  {
    match outcome
    case PostOk(data) => Success(data)
    case PostFailed(e) => Failure(UploadErrorText(cfg.baseURL, e))
  }

  // ---------------------------------------------------------------------
  // HEAD probes

  datatype HeadOutcome = HeadResponse(status: int, headers: map<string, string>) | HeadThrew

  /** What headAudio returns: one snapshot of the resource. */
  datatype ResourceMeta = ResourceMeta(
    ok: bool, size: Option<JsNumber>, lastModified: Option<string>, etag: Option<string>, url: string)

  /** `headers[name] || headers[altName]`: the second spelling is read when the
      first is missing or empty, and then returned even if empty. */
  function HeaderValue(h: map<string, string>, name: string, altName: string): (v: Option<string>)
    ensures name in h && h[name] != "" ==> v == Some(h[name])
    ensures (name !in h || h[name] == "") && altName in h ==> v == Some(h[altName])
    ensures v.None? <==> (name !in h || h[name] == "") && altName !in h
  {
    if name in h && h[name] != "" then Some(h[name])
    else if altName in h then Some(h[altName])
    else None
  }

  /** JavaScript truthiness of an optional string. */
  predicate Truthy(v: Option<string>) {
    v.Some? && v.value != ""
  }

  /** Whether axios.head resolves with the response: with its default status
      check only a 2xx status does; any other status rejects, like a network
      error. */
  predicate Delivered(outcome: HeadOutcome) {
    outcome.HeadResponse? && 200 <= outcome.status < 300
  }

  /** headAudio: any failure, a non-2xx status included, gives
      `{ok: false, url: audioUrl}`; a delivered response is ok only with
      status 200, and Content-Length is parsed only when the header is
      truthy. */
  function HeadAudio(cfg: Config, audioUrl: string, stamp: nat, rnd: string, outcome: HeadOutcome): (m: ResourceMeta)
    ensures !Delivered(outcome) ==> m == ResourceMeta(false, None, None, None, audioUrl)
    ensures m.ok <==> outcome.HeadResponse? && outcome.status == 200
    ensures Delivered(outcome) ==> m.url == ProbeUrl(cfg, audioUrl, stamp, rnd)
    ensures Delivered(outcome) ==>
              var sizeHeader := HeaderValue(outcome.headers, "content-length", "Content-Length");
              && (m.size.Some? <==> Truthy(sizeHeader))
              && (m.size.Some? ==> m.size.value == ParseInt(sizeHeader.value))
              && m.lastModified == HeaderValue(outcome.headers, "last-modified", "Last-Modified")
              && m.etag == HeaderValue(outcome.headers, "etag", "ETag")
  {
    if !Delivered(outcome) then ResourceMeta(false, None, None, None, audioUrl)
    else
      var h := outcome.headers;
      var sizeHeader := HeaderValue(h, "content-length", "Content-Length");
      ResourceMeta(
        outcome.status == 200,
        if Truthy(sizeHeader) then Some(ParseInt(sizeHeader.value)) else None,
        HeaderValue(h, "last-modified", "Last-Modified"),
        HeaderValue(h, "etag", "ETag"),
        ProbeUrl(cfg, audioUrl, stamp, rnd))
  }

  /** A Content-Length written as a decimal numeral is read as that number. */
  lemma HeadAudioReadsContentLength(cfg: Config, audioUrl: string, stamp: nat, rnd: string, status: int,
                                    h: map<string, string>, n: nat)
    requires 200 <= status < 300
    requires "content-length" in h && h["content-length"] == Decimal(n)
    ensures HeadAudio(cfg, audioUrl, stamp, rnd, HeadResponse(status, h)).size == Some(Num(n))
  {
    ParseIntString(n, "");
    assert IntString(n) + "" == Decimal(n);
  }

  /** The file is still missing: the 404 the server answers with until the
      speech file exists rejects the HEAD request, so the snapshot is the
      bare failure whatever headers came with it. */
  lemma MissingFileIsBareFailure(cfg: Config, audioUrl: string, stamp: nat, rnd: string, h: map<string, string>)
    ensures HeadAudio(cfg, audioUrl, stamp, rnd, HeadResponse(404, h)) == HeadAudio(cfg, audioUrl, stamp, rnd, HeadThrew)
  {
  }

  /** checkAudioReady: true only for a response with status 200; any thrown
      error, a non-2xx status included, reads as not ready. */
  function CheckAudioReady(outcome: HeadOutcome): bool {
    outcome.HeadResponse? && outcome.status == 200
  }

  /** checkAudioReady and headAudio agree on every probe outcome. */
  lemma CheckAudioReadyAgreesWithHead(cfg: Config, audioUrl: string, stamp: nat, rnd: string, outcome: HeadOutcome)
    ensures CheckAudioReady(outcome) == HeadAudio(cfg, audioUrl, stamp, rnd, outcome).ok
  {
  }

  // ---------------------------------------------------------------------
  // Change test

  /** `a === b` on two optional numbers: NaN equals nothing, not even NaN. */
  predicate SameNumber(a: Option<JsNumber>, b: Option<JsNumber>) {
    (a.None? && b.None?) || (a.Some? && b.Some? && a.value.Num? && b.value.Num? && a.value.value == b.value.value)
  }

  /** JavaScript truthiness of an optional number (0 and NaN are falsy). */
  predicate TruthyNumber(a: Option<JsNumber>) {
    a.Some? && a.value.Num? && a.value.value != 0
  }

  /** The six-signal test of pollForAudio: a signal that changed value while
      present on both sides (truthy on both sides for the two strings), or one
      that was undefined in the baseline and is now defined. */
  predicate ConsideredChanged(baseline: ResourceMeta, meta: ResourceMeta) {
    var sizeChanged := meta.size.Some? && baseline.size.Some? && !SameNumber(meta.size, baseline.size);
    var modChanged := Truthy(meta.lastModified) && Truthy(baseline.lastModified) && meta.lastModified != baseline.lastModified;
    var etagChanged := Truthy(meta.etag) && Truthy(baseline.etag) && meta.etag != baseline.etag;
    var newSizeAppeared := baseline.size.None? && meta.size.Some?;
    var newModAppeared := baseline.lastModified.None? && meta.lastModified.Some?;
    var newEtagAppeared := baseline.etag.None? && meta.etag.Some?;
    sizeChanged || modChanged || etagChanged || newSizeAppeared || newModAppeared || newEtagAppeared
  }

  /** Snapshots that agree on all three signals (absent on both sides counts
      as agreeing) are never a change. */
  lemma SameSignalsNotChanged(baseline: ResourceMeta, meta: ResourceMeta)
    requires SameNumber(baseline.size, meta.size)
    requires baseline.lastModified == meta.lastModified && baseline.etag == meta.etag
    ensures !ConsideredChanged(baseline, meta)
  {
  }

  /** Two present, different sizes are a change whatever the other signals say. */
  lemma DifferentSizesChanged(baseline: ResourceMeta, meta: ResourceMeta, a: int, b: int)
    requires baseline.size == Some(Num(a)) && meta.size == Some(Num(b)) && a != b
    ensures ConsideredChanged(baseline, meta)
  {
  }

  /** A signal the baseline lacked and the probe now reports is a change. */
  lemma AppearedSignalChanged(baseline: ResourceMeta, meta: ResourceMeta)
    requires (baseline.size.None? && meta.size.Some?)
          || (baseline.lastModified.None? && meta.lastModified.Some?)
          || (baseline.etag.None? && meta.etag.Some?)
    ensures ConsideredChanged(baseline, meta)
  {
  }

  /** A signal that disappears, the others agreeing, is not a change. */
  lemma DisappearedSignalNotChanged(baseline: ResourceMeta, meta: ResourceMeta)
    requires SameNumber(baseline.size, meta.size) || (baseline.size.Some? && meta.size.None?)
    requires baseline.lastModified == meta.lastModified || (baseline.lastModified.Some? && meta.lastModified.None?)
    requires baseline.etag == meta.etag || (baseline.etag.Some? && meta.etag.None?)
    ensures !ConsideredChanged(baseline, meta)
  {
  }

  /** A size header that does not parse (NaN) is a change on every probe,
      because NaN !== NaN. */
  lemma UnparsableSizeAlwaysChanged(baseline: ResourceMeta, meta: ResourceMeta)
    requires baseline.size == Some(NaN) && meta.size == Some(NaN)
    ensures ConsideredChanged(baseline, meta)
  {
  }

  // ---------------------------------------------------------------------
  // Download

  /** The device facts downloadAudio consults: whether it runs on the web and
      the FileSystem directories. */
  datatype Device = Device(isWeb: bool, cacheDirectory: string, documentDirectory: string)

  /** Whether FileSystem.downloadAsync wrote the file or threw. */
  datatype DownloadOutcome = Saved | DownloadFailed

  /** The local file a native download is written to: the cache directory
      (or the document directory, or nothing) followed by the reference's
      last path segment, or `audio_<ts>.mp3` when that segment is empty. */
  function DownloadTarget(device: Device, audioUrl: string, stamp: nat): (target: string)
    ensures StartsWith(target, Or(device.cacheDirectory, device.documentDirectory))
    ensures LastSegment(audioUrl) != "" ==>
              target == Or(device.cacheDirectory, device.documentDirectory) + LastSegment(audioUrl)
    ensures LastSegment(audioUrl) == "" ==>
              target == Or(device.cacheDirectory, device.documentDirectory) + "audio_" + Decimal(stamp) + ".mp3"
  {
    Or(device.cacheDirectory, device.documentDirectory) + Or(LastSegment(audioUrl), "audio_" + Decimal(stamp) + ".mp3")
  }

  /** downloadAudio: on the web the stamped full URL itself; natively the
      local target file, whose URI downloadAsync reports back, or a
      failure. */
  function DownloadAudio(cfg: Config, device: Device, audioUrl: string, stamp: nat, outcome: DownloadOutcome): (r: Option<string>)
    ensures device.isWeb ==> r == Some(StampedUrl(cfg, audioUrl, stamp))
    ensures !device.isWeb ==> (r.Some? <==> outcome.Saved?)
    ensures !device.isWeb && outcome.Saved? ==> r.value == DownloadTarget(device, audioUrl, stamp)
  {
    if device.isWeb then Some(StampedUrl(cfg, audioUrl, stamp))
    else match outcome
      case Saved => Some(DownloadTarget(device, audioUrl, stamp))
      case DownloadFailed => None
  }

  /** On the web the result is the resolved URL with exactly one added
      parameter, `cb=<ts>`. */
  lemma WebDownloadIsStampedUrl(cfg: Config, device: Device, audioUrl: string, stamp: nat, outcome: DownloadOutcome)
    requires device.isWeb
    ensures var r := DownloadAudio(cfg, device, audioUrl, stamp, outcome).value;
            var full := ResolveUrl(cfg, audioUrl);
            && StartsWith(r, full)
            && r[|full|..] == (if '?' in full then "&" else "?") + StampParam(stamp)
  {
    var full := ResolveUrl(cfg, audioUrl);
    assert DownloadAudio(cfg, device, audioUrl, stamp, outcome).value == AppendQuery(full, StampParam(stamp));
    AppendQueryAfterUrl(full, StampParam(stamp));
  }
}
