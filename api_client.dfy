/**
 * The authenticated REST client (frontend/src/api/keBIJOApi.js): request
 * headers, the reading of responses, the bounded exponential-backoff retry
 * loop of `makeRequest`, and the argument checks and response-shape
 * normalisation of the five endpoint calls.
 *
 * `fetch` is not called: each request is given the scripted sequence of
 * outcomes its attempts would meet, attempt `n` meeting `script[n]`, and
 * `sleep` is not performed: the delays it would wait are returned.
 */
module ApiClient {
  import opened Wrappers
  import opened Text
  import opened JsonValue
  import opened ApiConfig

  /** `RETRY_CONFIG`. */
  const MaxRetries: nat := 3
  const RetryDelay: nat := 1000
  const RetryableStatusCodes: seq<int> := [408, 429, 500, 502, 503, 504]

  const JsonContentType: string := "application/json"
  const AuthRequiredMessage: string := "Authentication token is required"
  const VideoIdRequiredMessage: string := "Video ID is required"
  const FilenameRequiredMessage: string := "Filename is required"

  function Pow2(n: nat): nat {
    if n == 0 then 1 else 2 * Pow2(n - 1)
  }

  /** The wait before retry number `retryCount + 1`: `retryDelay * 2 ** retryCount`. */
  function BackoffDelay(retryCount: nat): nat {
    RetryDelay * Pow2(retryCount)
  }

  // ---------------------------------------------------------------- headers

  /**
   * `createHeaders(token, additionalHeaders)`: the JSON content type, then
   * the caller's headers, then the bearer token when there is one. An empty
   * `token` stands for every falsy token (`null`, `undefined`, `''`).
   */
  function CreateHeaders(token: string, extra: map<string, string>): (h: map<string, string>)
    ensures "Content-Type" in h
    ensures "Content-Type" !in extra ==> h["Content-Type"] == JsonContentType
    ensures token != "" ==> "Authorization" in h && h["Authorization"] == "Bearer " + token
    ensures token == "" ==> ("Authorization" in h <==> "Authorization" in extra)
    ensures forall k :: k in extra && (k != "Authorization" || token == "") ==> k in h && h[k] == extra[k]
    ensures forall k :: k in h ==> k in extra || k == "Content-Type" || k == "Authorization"
  {
    var base := map["Content-Type" := JsonContentType] + extra;
    if token != "" then base["Authorization" := "Bearer " + token] else base
  }

  // -------------------------------------------------------------- responses

  /**
   * A response body: whether its `content-type` names JSON, its text, and
   * what `JSON.parse` makes of that text (`Err` carries the syntax error's
   * message).
   */
  datatype Body = Body(jsonContentType: bool, text: string, parsed: Result<Json, string>)

  /** What one call of `fetch` settles to. */
  datatype FetchOutcome =
    | NetworkFailure(message: string)
    | Response(status: int, statusText: string, body: Body)

  /** A thrown `Error`: its message and its `status` property, if any. */
  datatype ApiError = ApiError(message: string, status: Option<int>)

  /** `response.ok`. */
  predicate IsOk(status: int) {
    200 <= status <= 299
  }

  predicate IsRetryableStatus(status: int) {
    status in RetryableStatusCodes
  }

  /** `!error.status`: the error carries no status, or status 0. */
  predicate LacksStatus(e: ApiError) {
    e.status.None? || e.status == Some(0)
  }

  function DefaultErrorMessage(status: int): string {
    "API request failed with status " + IntToString(status)
  }

  /**
   * The message `handleResponse` gives an error response: the JSON body's
   * `message`, else its `error`, else the default; when the body is not JSON
   * (or is JSON `null`, whose properties cannot be read), the status text,
   * else the default.
   */
  function ErrorMessage(status: int, statusText: string, body: Body): (m: string)
    ensures body.parsed.Err? || body.parsed == Ok(JNull) ==>
              m == if statusText != "" then statusText else DefaultErrorMessage(status)
    ensures body.parsed.Ok? && body.parsed.value != JNull && Truthy(Get(body.parsed.value, "message")) ==>
              m == ToJsString(Get(body.parsed.value, "message"))
    ensures body.parsed.Ok? && body.parsed.value != JNull && !Truthy(Get(body.parsed.value, "message"))
              && Truthy(Get(body.parsed.value, "error")) ==>
              m == ToJsString(Get(body.parsed.value, "error"))
    ensures body.parsed.Ok? && body.parsed.value != JNull && !Truthy(Get(body.parsed.value, "message"))
              && !Truthy(Get(body.parsed.value, "error")) ==>
              m == DefaultErrorMessage(status)
  {
    var default := DefaultErrorMessage(status);
    match body.parsed
    case Err(_) => if statusText != "" then statusText else default
    case Ok(v) =>
      if v == JNull then (if statusText != "" then statusText else default)
      else ToJsString(Or(Get(v, "message"), Or(Get(v, "error"), JStr(default))))
  }

  /**
   * What one attempt yields without retrying: a rejected `fetch`, or
   * `handleResponse` on the response (an error with the status for a
   * non-ok status; the parsed JSON, `{}` for an empty non-JSON body, or the
   * parse error, for an ok one).
   */
  function Settle(o: FetchOutcome): (r: Result<Json, ApiError>)
    ensures o.NetworkFailure? ==> r == Err(ApiError(o.message, None))
    ensures o.Response? && !IsOk(o.status) ==>
              r == Err(ApiError(ErrorMessage(o.status, o.statusText, o.body), Some(o.status)))
    ensures o.Response? && IsOk(o.status) ==> r.Err? ==> r.error.status.None?
    ensures o.Response? && IsOk(o.status) && !o.body.jsonContentType && o.body.text == "" ==> r == Ok(JObj(map[]))
    ensures o.Response? && IsOk(o.status) && (o.body.jsonContentType || o.body.text != "") ==>
              r == match o.body.parsed
                   case Ok(v) => Ok(v)
                   case Err(m) => Err(ApiError(m, None))
  {
    match o
    case NetworkFailure(m) => Err(ApiError(m, None))
    case Response(status, statusText, body) =>
      if !IsOk(status) then Err(ApiError(ErrorMessage(status, statusText, body), Some(status)))
      else if !body.jsonContentType && body.text == "" then Ok(JObj(map[]))
      else match body.parsed
        case Ok(v) => Ok(v)
        case Err(m) => Err(ApiError(m, None))
  }

  /**
   * Whether attempt `n` (0-based, `retryCount` in the source) is followed
   * by another: only while `n < maxRetries`, for an error status on the
   * allow-list, or for an error that carries no status (a network failure,
   * a body that does not parse, status 0).
   */
  predicate ShouldRetry(o: FetchOutcome, n: nat): (r: bool)
    ensures r ==> n < MaxRetries
    ensures o.NetworkFailure? ==> (r <==> n < MaxRetries)
    ensures o.Response? && !IsOk(o.status) ==> (r <==> n < MaxRetries && (IsRetryableStatus(o.status) || o.status == 0))
    ensures o.Response? && IsOk(o.status) ==> (r <==> n < MaxRetries && Settle(o).Err?)
  {
    n < MaxRetries &&
    ((o.Response? && !IsOk(o.status) && IsRetryableStatus(o.status))
     || (Settle(o).Err? && LacksStatus(Settle(o).error)))
  }

  // ------------------------------------------------------------ retry loop

  /** The whole of one `makeRequest` call: what it returns or throws, how many fetches it made, and the waits between them. */
  datatype Trace = Trace(result: Result<Json, ApiError>, attempts: nat, delays: seq<nat>)

  /**
   * The recursion of `makeRequest` from attempt `n` on, for any per-attempt
   * retry decision and any way of settling one attempt: a retried attempt
   * adds one fetch and the backoff delay of its index to the rest of the run.
   */
  function Run<O>(script: seq<O>, n: nat, retry: (O, nat) -> bool, settle: O -> Result<Json, ApiError>): Trace
    requires n <= MaxRetries < |script|
    decreases MaxRetries - n
  {
    if n < MaxRetries && retry(script[n], n) then
      var rest := Run(script, n + 1, retry, settle);
      Trace(rest.result, rest.attempts + 1, [BackoffDelay(n)] + rest.delays)
    else
      Trace(settle(script[n]), 1, [])
  }

  /** `makeRequest(url, options, n)` run against `script`. */
  function RequestFrom(script: seq<FetchOutcome>, n: nat): Trace
    requires n <= MaxRetries < |script|
  {
    Run(script, n, ShouldRetry, Settle)
  }

  /** `makeRequest(url, options)` run against `script`. */
  function Request(script: seq<FetchOutcome>): Trace
    requires MaxRetries < |script|
  {
    RequestFrom(script, 0)
  }

  /**
   * The count and the waits of every run from attempt `n` on: between one
   * and `4 - n` fetches, and before attempt `n + i + 1` the backoff delay of
   * index `n + i`.
   */
  lemma {:induction false} RunDelays<O>(script: seq<O>, n: nat, retry: (O, nat) -> bool, settle: O -> Result<Json, ApiError>)
    requires n <= MaxRetries < |script|
    decreases MaxRetries - n
    ensures var t := Run(script, n, retry, settle);
      && 1 <= t.attempts <= MaxRetries + 1 - n
      && |t.delays| == t.attempts - 1
      && forall i :: 0 <= i < |t.delays| ==> t.delays[i] == BackoffDelay(n + i)
  {
    if n < MaxRetries && retry(script[n], n) {
      RunDelays(script, n + 1, retry, settle);
      var rest := Run(script, n + 1, retry, settle);
      var t := Run(script, n, retry, settle);
      assert t.delays == [BackoffDelay(n)] + rest.delays;
      forall i | 0 <= i < |t.delays| ensures t.delays[i] == BackoffDelay(n + i) {
        if i > 0 { assert t.delays[i] == rest.delays[i - 1]; }
      }
    }
  }

  /**
   * Which attempts were retried in a run from attempt `n` on: every one but
   * the last, which was not, and the run ends with what the last settled to.
   */
  lemma {:induction false} RunShape<O>(script: seq<O>, n: nat, retry: (O, nat) -> bool, settle: O -> Result<Json, ApiError>)
    requires n <= MaxRetries < |script|
    decreases MaxRetries - n
    ensures var t := Run(script, n, retry, settle);
      && 1 <= t.attempts <= MaxRetries + 1 - n
      && (forall i :: n <= i < n + t.attempts - 1 ==> i < MaxRetries && retry(script[i], i))
      && !(n + t.attempts - 1 < MaxRetries && retry(script[n + t.attempts - 1], n + t.attempts - 1))
      && t.result == settle(script[n + t.attempts - 1])
  {
    if n < MaxRetries && retry(script[n], n) {
      RunShape(script, n + 1, retry, settle);
    }
  }

  /** The retry loop of `makeRequest` from retry count `n`: the waits it makes. */
  lemma RequestFromDelays(script: seq<FetchOutcome>, n: nat)
    requires n <= MaxRetries < |script|
    ensures var t := RequestFrom(script, n);
      && 1 <= t.attempts <= MaxRetries + 1 - n
      && |t.delays| == t.attempts - 1
      && forall i :: 0 <= i < |t.delays| ==> t.delays[i] == BackoffDelay(n + i)
  {
    RunDelays(script, n, ShouldRetry, Settle);
  }

  /** The retry loop of `makeRequest` from retry count `n`: which attempts it retries and what it ends with. */
  lemma RequestFromShape(script: seq<FetchOutcome>, n: nat)
    requires n <= MaxRetries < |script|
    ensures var t := RequestFrom(script, n);
      && 1 <= t.attempts <= MaxRetries + 1 - n
      && (forall i :: n <= i < n + t.attempts - 1 ==> ShouldRetry(script[i], i))
      && !ShouldRetry(script[n + t.attempts - 1], n + t.attempts - 1)
      && t.result == Settle(script[n + t.attempts - 1])
  {
    RunShape(script, n, ShouldRetry, Settle);
  }

  /**
   * The retry policy: at most four fetches, waits of 1000, 2000 and 4000 ms
   * between them, a retry after every attempt but the last, and the last
   * attempt's result (or error) passed to the caller.
   */
  lemma RetryPolicy(script: seq<FetchOutcome>)
    requires MaxRetries < |script|
    ensures var t := Request(script);
      && 1 <= t.attempts <= 4
      && t.delays == [1000, 2000, 4000][..t.attempts - 1]
      && (forall i :: 0 <= i < t.attempts - 1 ==> ShouldRetry(script[i], i))
      && t.result == Settle(script[t.attempts - 1])
  {
    RunPolicy(script, ShouldRetry, Settle);
  }

  /** The retry policy for any retry decision and settle step: the schedule of waits and the last attempt's result. */
  lemma RunPolicy<O>(script: seq<O>, retry: (O, nat) -> bool, settle: O -> Result<Json, ApiError>)
    requires MaxRetries < |script|
    ensures var t := Run(script, 0, retry, settle);
      && 1 <= t.attempts <= 4
      && t.delays == [1000, 2000, 4000][..t.attempts - 1]
      && (forall i :: 0 <= i < t.attempts - 1 ==> retry(script[i], i))
      && t.result == settle(script[t.attempts - 1])
  {
    RunDelays(script, 0, retry, settle);
    RunShape(script, 0, retry, settle);
    var t := Run(script, 0, retry, settle);
    BackoffSchedule();
    if t.attempts == 1 {
      assert t.delays == [];
    } else if t.attempts == 2 {
      assert t.delays == [t.delays[0]];
    } else if t.attempts == 3 {
      assert t.delays == [t.delays[0], t.delays[1]];
    } else {
      assert t.delays == [t.delays[0], t.delays[1], t.delays[2]];
    }
  }

  /** The first three backoff delays. */
  lemma BackoffSchedule()
    ensures BackoffDelay(0) == 1000 && BackoffDelay(1) == 2000 && BackoffDelay(2) == 4000
  {
    assert Pow2(2) == 4;
  }

  /** An error status off the allow-list (and not 0) ends the call at once with that status. */
  lemma NonRetryableStatusFailsAtOnce(script: seq<FetchOutcome>)
    requires MaxRetries < |script|
    requires script[0].Response? && !IsOk(script[0].status) && script[0].status != 0
    requires !IsRetryableStatus(script[0].status)
    ensures Request(script) ==
      Trace(Err(ApiError(ErrorMessage(script[0].status, script[0].statusText, script[0].body), Some(script[0].status))), 1, [])
  {
  }

  /** An error status on the allow-list, at attempt `n < 3`, is always followed by attempt `n + 1` after the backoff delay. */
  lemma RetryableStatusIsRetried(script: seq<FetchOutcome>, n: nat)
    requires n < MaxRetries < |script|
    requires script[n].Response? && !IsOk(script[n].status) && IsRetryableStatus(script[n].status)
    ensures RequestFrom(script, n).attempts == RequestFrom(script, n + 1).attempts + 1
    ensures RequestFrom(script, n).delays == [BackoffDelay(n)] + RequestFrom(script, n + 1).delays
    ensures RequestFrom(script, n).result == RequestFrom(script, n + 1).result
  {
  }

  /** So is every error without a status: a network failure, or an ok body that does not parse. */
  lemma StatuslessErrorIsRetried(script: seq<FetchOutcome>, n: nat)
    requires n < MaxRetries < |script|
    requires script[n].NetworkFailure? || (script[n].Response? && IsOk(script[n].status) && Settle(script[n]).Err?)
    ensures RequestFrom(script, n).attempts == RequestFrom(script, n + 1).attempts + 1
    ensures RequestFrom(script, n).delays == [BackoffDelay(n)] + RequestFrom(script, n + 1).delays
  {
  }

  /** When every attempt fails with a network error, there are four attempts and the last error is thrown. */
  lemma NetworkDownThrowsLastError(script: seq<FetchOutcome>)
    requires MaxRetries < |script|
    requires forall i :: 0 <= i <= MaxRetries ==> script[i].NetworkFailure?
    ensures Request(script) == Trace(Err(ApiError(script[3].message, None)), 4, [1000, 2000, 4000])
  {
    assert BackoffDelay(0) == 1000 && BackoffDelay(1) == 2000 && BackoffDelay(2) == 4000;
    assert RequestFrom(script, 3) == Trace(Err(ApiError(script[3].message, None)), 1, []);
    assert ShouldRetry(script[2], 2) && ShouldRetry(script[1], 1) && ShouldRetry(script[0], 0);
  }

  /** A 500 followed by a 200 with a JSON body: one retry after 1000 ms, then that body. */
  lemma ServerErrorThenSuccess(script: seq<FetchOutcome>, v: Json)
    requires MaxRetries < |script|
    requires script[0].Response? && script[0].status == 500
    requires script[1].Response? && script[1].status == 200
    requires script[1].body.jsonContentType && script[1].body.parsed == Ok(v)
    ensures Request(script) == Trace(Ok(v), 2, [1000])
  {
    assert !ShouldRetry(script[1], 1);
    assert RequestFrom(script, 1) == Trace(Ok(v), 1, []);
    assert ShouldRetry(script[0], 0);
  }

  /**
   * `makeRequest`: the recursion on `retryCount` written as a loop over the
   * scripted outcomes, returning the result, the number of fetches and the
   * waits `sleep` was asked for.
   */
  method MakeRequest(script: seq<FetchOutcome>) returns (result: Result<Json, ApiError>, attempts: nat, delays: seq<nat>)
    requires MaxRetries < |script|
    ensures Trace(result, attempts, delays) == Request(script)
  {
    var retryCount: nat := 0;
    delays := [];
    while true
      invariant retryCount <= MaxRetries
      invariant |delays| == retryCount
      invariant Request(script) == Resumed(delays, RequestFrom(script, retryCount))
      decreases MaxRetries - retryCount
    {
      var outcome := script[retryCount];
      if outcome.Response? && !IsOk(outcome.status) && retryCount < MaxRetries
         && IsRetryableStatus(outcome.status) {
        RetriedStep(script, retryCount, delays);
        delays := delays + [BackoffDelay(retryCount)];
        retryCount := retryCount + 1;
        continue;
      }
      var settled := Settle(outcome);
      if settled.Err? && retryCount < MaxRetries && LacksStatus(settled.error) {
        RetriedStep(script, retryCount, delays);
        delays := delays + [BackoffDelay(retryCount)];
        retryCount := retryCount + 1;
        continue;
      }
      assert !ShouldRetry(outcome, retryCount);
      SettledStep(script, retryCount, delays);
      result, attempts := settled, retryCount + 1;
      return;
    }
  }

  /** A run that had already waited `delays` before reaching the attempts of `rest`. */
  function Resumed(delays: seq<nat>, rest: Trace): Trace {
    Trace(rest.result, rest.attempts + |delays|, delays + rest.delays)
  }

  lemma RetriedStep(script: seq<FetchOutcome>, n: nat, delays: seq<nat>)
    requires n < MaxRetries < |script|
    requires ShouldRetry(script[n], n)
    ensures Resumed(delays, RequestFrom(script, n)) == Resumed(delays + [BackoffDelay(n)], RequestFrom(script, n + 1))
  {
    var rest := RequestFrom(script, n + 1);
    assert delays + ([BackoffDelay(n)] + rest.delays) == (delays + [BackoffDelay(n)]) + rest.delays;
  }

  lemma SettledStep(script: seq<FetchOutcome>, n: nat, delays: seq<nat>)
    requires n <= MaxRetries < |script|
    requires !ShouldRetry(script[n], n)
    ensures Resumed(delays, RequestFrom(script, n)) == Trace(Settle(script[n]), |delays| + 1, delays)
  {
    assert RequestFrom(script, n) == Trace(Settle(script[n]), 1, []);
  }

  // ---------------------------------------------------------- endpoints

  /** The request an endpoint sends, attempt after attempt. */
  datatype HttpRequest = HttpRequest(verb: string, url: string, headers: map<string, string>, body: Option<Json>)

  /** V8's message for reading a property of `null`. */
  function NullPropertyMessage(key: string): string {
    "Cannot read properties of null (reading '" + key + "')"
  }

  /** `response.videos || response.data || response || []`. */
  function NormaliseVideos(v: Json): (r: Result<Json, string>)
    ensures v == JNull <==> r.Err?
    ensures v != JNull && Truthy(Get(v, "videos")) ==> r == Ok(Get(v, "videos"))
    ensures v != JNull && !Truthy(Get(v, "videos")) && Truthy(Get(v, "data")) ==> r == Ok(Get(v, "data"))
    ensures v != JNull && !Truthy(Get(v, "videos")) && !Truthy(Get(v, "data")) && Truthy(v) ==> r == Ok(v)
    ensures v != JNull && !Truthy(v) ==> r == Ok(JArr([]))
  {
    if v == JNull then Err(NullPropertyMessage("videos"))
    else Ok(Or(Get(v, "videos"), Or(Get(v, "data"), Or(v, JArr([])))))
  }

  /** `response.playbackUrl || response.url || response.playback_url || response`. */
  function NormalisePlaybackUrl(v: Json): (r: Result<Json, string>)
    ensures v == JNull <==> r.Err?
    ensures v != JNull && Truthy(Get(v, "playbackUrl")) ==> r == Ok(Get(v, "playbackUrl"))
    ensures v != JNull && !Truthy(Get(v, "playbackUrl")) && Truthy(Get(v, "url")) ==> r == Ok(Get(v, "url"))
    ensures (v != JNull && !Truthy(Get(v, "playbackUrl")) && !Truthy(Get(v, "url")) && Truthy(Get(v, "playback_url")))
              ==> r == Ok(Get(v, "playback_url"))
    ensures (v != JNull && !Truthy(Get(v, "playbackUrl")) && !Truthy(Get(v, "url")) && !Truthy(Get(v, "playback_url")))
              ==> r == Ok(v)
  {
    if v == JNull then Err(NullPropertyMessage("playbackUrl"))
    else Ok(Or(Get(v, "playbackUrl"), Or(Get(v, "url"), Or(Get(v, "playback_url"), v))))
  }

  /** The own properties `{...v}` copies: an object's fields; nothing for the other values modelled. */
  function SpreadFields(v: Json): map<string, Json> {
    if v.JObj? then v.fields else map[]
  }

  /**
   * `{ uploadUrl: uploadUrl || upload_url || url, videoId: videoId || video_id || id, ...response }`:
   * the aliases are tried in order, and then every field of the response
   * itself is copied over them, so a present `uploadUrl` (even a falsy one) wins.
   */
  function NormaliseUpload(v: Json): (r: Result<Json, string>)
    ensures v == JNull <==> r.Err?
    ensures r.Ok? ==> r.value.JObj? && "uploadUrl" in r.value.fields && "videoId" in r.value.fields
    ensures r.Ok? ==> forall k :: k in SpreadFields(v) ==> k in r.value.fields && r.value.fields[k] == SpreadFields(v)[k]
    ensures r.Ok? && "uploadUrl" !in SpreadFields(v) ==>
              r.value.fields["uploadUrl"] == Or(Get(v, "uploadUrl"), Or(Get(v, "upload_url"), Get(v, "url")))
    ensures r.Ok? && "videoId" !in SpreadFields(v) ==>
              r.value.fields["videoId"] == Or(Get(v, "videoId"), Or(Get(v, "video_id"), Get(v, "id")))
  {
    if v == JNull then Err(NullPropertyMessage("uploadUrl"))
    else
      var picked := map[
        "uploadUrl" := Or(Get(v, "uploadUrl"), Or(Get(v, "upload_url"), Get(v, "url"))),
        "videoId" := Or(Get(v, "videoId"), Or(Get(v, "video_id"), Get(v, "id")))];
      Ok(JObj(picked + SpreadFields(v)))
  }

  /** `response.video || response.data || response`. */
  function NormaliseMetadata(v: Json): (r: Result<Json, string>)
    ensures v == JNull <==> r.Err?
    ensures v != JNull && Truthy(Get(v, "video")) ==> r == Ok(Get(v, "video"))
    ensures v != JNull && !Truthy(Get(v, "video")) && Truthy(Get(v, "data")) ==> r == Ok(Get(v, "data"))
    ensures v != JNull && !Truthy(Get(v, "video")) && !Truthy(Get(v, "data")) ==> r == Ok(v)
  {
    if v == JNull then Err(NullPropertyMessage("video"))
    else Ok(Or(Get(v, "video"), Or(Get(v, "data"), v)))
  }

  /**
   * The `try`/`catch` around `makeRequest` in each endpoint: any error,
   * including one from normalising the response, is rethrown with the
   * endpoint's prefix and without its status.
   */
  function Complete(prefix: string, r: Result<Json, ApiError>, normalise: Json -> Result<Json, string>): (c: Result<Json, string>)
    ensures r.Err? ==> c == Err(prefix + r.error.message)
    ensures r.Ok? && normalise(r.value).Err? ==> c == Err(prefix + normalise(r.value).error)
    ensures r.Ok? && normalise(r.value).Ok? ==> c == normalise(r.value)
  {
    match r
    case Err(e) => Err(prefix + e.message)
    case Ok(v) =>
      match normalise(v)
      case Err(m) => Err(prefix + m)
      case Ok(x) => Ok(x)
  }

  /** `fetchVideos(token)`. */
  method FetchVideos(baseUrl: string, token: string, script: seq<FetchOutcome>)
    returns (sent: Option<HttpRequest>, res: Result<Json, string>, attempts: nat)
    requires MaxRetries < |script|
    ensures token == "" ==> sent == None && attempts == 0 && res == Err(AuthRequiredMessage)
    ensures token != "" ==>
      && sent == Some(HttpRequest("GET", GetApiUrl(baseUrl, VideosPath), CreateHeaders(token, map[]), None))
      && attempts == Request(script).attempts
      && res == Complete("Failed to fetch videos: ", Request(script).result, NormaliseVideos)
  {
    if token == "" {
      return None, Err(AuthRequiredMessage), 0;
    }
    sent := Some(HttpRequest("GET", GetApiUrl(baseUrl, VideosPath), CreateHeaders(token, map[]), None));
    var result, delays;
    result, attempts, delays := MakeRequest(script);
    res := Complete("Failed to fetch videos: ", result, NormaliseVideos);
  }

  /**
   * A first attempt that succeeds with an empty body and no JSON content
   * type makes `fetchVideos` resolve to the empty object `{}`, not to `[]`:
   * `handleResponse` gives `{}`, which is truthy. `[]` is reached only when
   * the response is a falsy value other than `null`.
   */
  lemma EmptyBodyFetchesEmptyObject(script: seq<FetchOutcome>)
    requires MaxRetries < |script|
    requires script[0].Response? && IsOk(script[0].status)
    requires !script[0].body.jsonContentType && script[0].body.text == ""
    ensures Request(script) == Trace(Ok(JObj(map[])), 1, [])
    ensures Complete("Failed to fetch videos: ", Request(script).result, NormaliseVideos) == Ok(JObj(map[]))
  {
    assert Settle(script[0]) == Ok(JObj(map[]));
    assert !ShouldRetry(script[0], 0);
  }

  /** `fetchPlaybackUrl(videoId, token)`. */
  method FetchPlaybackUrl(baseUrl: string, videoId: string, token: string, script: seq<FetchOutcome>)
    returns (sent: Option<HttpRequest>, res: Result<Json, string>, attempts: nat)
    requires MaxRetries < |script|
    ensures token == "" ==> sent == None && attempts == 0 && res == Err(AuthRequiredMessage)
    ensures token != "" && videoId == "" ==> sent == None && attempts == 0 && res == Err(VideoIdRequiredMessage)
    ensures token != "" && videoId != "" ==>
      && sent == Some(HttpRequest("GET", GetApiUrl(baseUrl, PlayPath(videoId)), CreateHeaders(token, map[]), None))
      && attempts == Request(script).attempts
      && res == Complete("Failed to fetch playback URL: ", Request(script).result, NormalisePlaybackUrl)
  {
    if token == "" {
      return None, Err(AuthRequiredMessage), 0;
    }
    if videoId == "" {
      return None, Err(VideoIdRequiredMessage), 0;
    }
    sent := Some(HttpRequest("GET", GetApiUrl(baseUrl, PlayPath(videoId)), CreateHeaders(token, map[]), None));
    var result, delays;
    result, attempts, delays := MakeRequest(script);
    res := Complete("Failed to fetch playback URL: ", result, NormalisePlaybackUrl);
  }

  /** `initiateUpload(filename, token, metadata)`: the body is `{filename, ...metadata}`. */
  method InitiateUpload(baseUrl: string, filename: string, token: string, metadata: map<string, Json>,
                        script: seq<FetchOutcome>)
    returns (sent: Option<HttpRequest>, res: Result<Json, string>, attempts: nat)
    requires MaxRetries < |script|
    ensures token == "" ==> sent == None && attempts == 0 && res == Err(AuthRequiredMessage)
    ensures token != "" && filename == "" ==> sent == None && attempts == 0 && res == Err(FilenameRequiredMessage)
    ensures token != "" && filename != "" ==>
      && sent == Some(HttpRequest("POST", GetApiUrl(baseUrl, UploadInitiatePath), CreateHeaders(token, map[]),
                                  Some(JObj(map["filename" := JStr(filename)] + metadata))))
      && attempts == Request(script).attempts
      && res == Complete("Failed to initiate upload: ", Request(script).result, NormaliseUpload)
  {
    if token == "" {
      return None, Err(AuthRequiredMessage), 0;
    }
    if filename == "" {
      return None, Err(FilenameRequiredMessage), 0;
    }
    var body := JObj(map["filename" := JStr(filename)] + metadata);
    sent := Some(HttpRequest("POST", GetApiUrl(baseUrl, UploadInitiatePath), CreateHeaders(token, map[]), Some(body)));
    var result, delays;
    result, attempts, delays := MakeRequest(script);
    res := Complete("Failed to initiate upload: ", result, NormaliseUpload);
  }

  /** `saveVideoMetadata(videoId, metadata, token)`. */
  method SaveVideoMetadata(baseUrl: string, videoId: string, metadata: Json, token: string, script: seq<FetchOutcome>)
    returns (sent: Option<HttpRequest>, res: Result<Json, string>, attempts: nat)
    requires MaxRetries < |script|
    ensures token == "" ==> sent == None && attempts == 0 && res == Err(AuthRequiredMessage)
    ensures token != "" && videoId == "" ==> sent == None && attempts == 0 && res == Err(VideoIdRequiredMessage)
    ensures token != "" && videoId != "" ==>
      && sent == Some(HttpRequest("PUT", GetApiUrl(baseUrl, VideoPath(videoId)), CreateHeaders(token, map[]), Some(metadata)))
      && attempts == Request(script).attempts
      && res == Complete("Failed to save video metadata: ", Request(script).result, NormaliseMetadata)
  {
    if token == "" {
      return None, Err(AuthRequiredMessage), 0;
    }
    if videoId == "" {
      return None, Err(VideoIdRequiredMessage), 0;
    }
    sent := Some(HttpRequest("PUT", GetApiUrl(baseUrl, VideoPath(videoId)), CreateHeaders(token, map[]), Some(metadata)));
    var result, delays;
    result, attempts, delays := MakeRequest(script);
    res := Complete("Failed to save video metadata: ", result, NormaliseMetadata);
  }

  /** `deleteVideo(videoId, token)`: resolves to `undefined` (here `JNull`) once the request succeeds. */
  method DeleteVideo(baseUrl: string, videoId: string, token: string, script: seq<FetchOutcome>)
    returns (sent: Option<HttpRequest>, res: Result<Json, string>, attempts: nat)
    requires MaxRetries < |script|
    ensures token == "" ==> sent == None && attempts == 0 && res == Err(AuthRequiredMessage)
    ensures token != "" && videoId == "" ==> sent == None && attempts == 0 && res == Err(VideoIdRequiredMessage)
    ensures token != "" && videoId != "" ==>
      && sent == Some(HttpRequest("DELETE", GetApiUrl(baseUrl, VideoPath(videoId)), CreateHeaders(token, map[]), None))
      && attempts == Request(script).attempts
      && res == Complete("Failed to delete video: ", Request(script).result, (_: Json) => Ok(JNull))
  {
    if token == "" {
      return None, Err(AuthRequiredMessage), 0;
    }
    if videoId == "" {
      return None, Err(VideoIdRequiredMessage), 0;
    }
    sent := Some(HttpRequest("DELETE", GetApiUrl(baseUrl, VideoPath(videoId)), CreateHeaders(token, map[]), None));
    var result, delays;
    result, attempts, delays := MakeRequest(script);
    res := Complete("Failed to delete video: ", result, (_: Json) => Ok(JNull));
  }
}
