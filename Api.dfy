/** The browser's client for the assistant backend: the base URL, the
    mixed-content guard, the JSON request helpers with their error messages,
    the three validated operations and the health probe. The network is a
    parameter: each call receives what the transport would deliver and reports
    the request it would have sent, if any. */
module Api {
  import opened Wrappers
  import opened Text

  const DefaultBaseUrl := "http://localhost:3001"

  /** What the page can observe of its surroundings: the configured backend
      base URL (unset when absent) and `window.location.protocol` (absent when
      there is no window). */
  datatype Environment = Environment(backendBaseUrl: Option<string>, windowProtocol: Option<string>)

  /** A backend JSON body, reduced to the fields the client reads. */
  datatype ErrorBody = ErrorBody(message: Option<string>)
  datatype Payload = Payload(content: Option<string>, message: Option<string>, error: Option<ErrorBody>)

  const EmptyPayload := Payload(None, None, None)

  /** An HTTP response: its status, its content-type header and what reading
      its body as JSON gives (`None` when the body does not parse). */
  datatype Response = Response(status: nat, contentType: Option<string>, json: Option<Payload>)

  /** What `fetch` settles to: a rejection carrying an optional message, or a
      response. */
  datatype FetchOutcome = NetworkFailure(details: Option<string>) | Received(response: Response)

  datatype Verb = Get | Post

  datatype RequestBody =
    | GenerateBody(prompt: string, language: Option<string>, systemPrompt: Option<string>, model: Option<string>)
    | ExplainBody(code: string, language: Option<string>, systemPrompt: Option<string>, model: Option<string>)
    | DebugBody(code: string, language: Option<string>, error: Option<string>,
                systemPrompt: Option<string>, model: Option<string>)

  /** A request handed to the transport. */
  datatype Request = Request(verb: Verb, url: string, body: Option<RequestBody>)

  /** The error a call rejects with: its message and, for a non-2xx response,
      the status. */
  datatype ApiError = ApiError(message: string, status: Option<nat>)

  /** JavaScript truthiness of an optional string. */
  predicate Truthy(v: Option<string>) {
    v.Some? && v.value != ""
  }

  // ---------------------------------------------------------------------------
  // Configuration and the mixed-content guard
  // ---------------------------------------------------------------------------

  // Replacing the regular expression of trailing slashes by "": the longest
  // prefix of `s` not ending in a slash, with only slashes after it.
  function StripTrailingSlashes(s: string): (r: string)
    ensures |r| <= |s| && r == s[..|r|]
    ensures forall i | |r| <= i < |s| :: s[i] == '/'
    ensures r == [] || r[|r| - 1] != '/'
  {
    if s != [] && s[|s| - 1] == '/' then StripTrailingSlashes(s[..|s| - 1]) else s
  }

  /** The effective base URL: the configured value without trailing slashes,
      or the local default when it is unset or nothing but slashes. It is never
      empty and never ends in a slash. */
  function BaseUrl(configured: Option<string>): (url: string)
    ensures url != [] && url[|url| - 1] != '/'
    ensures (configured.None? || forall i | 0 <= i < |configured.value| :: configured.value[i] == '/')
            ==> url == DefaultBaseUrl
    ensures configured.Some? && (exists i | 0 <= i < |configured.value| :: configured.value[i] != '/')
            ==> && |url| <= |configured.value|
                && url == configured.value[..|url|]
                && forall i | |url| <= i < |configured.value| :: configured.value[i] == '/'
  {
    match configured
    case None => DefaultBaseUrl
    case Some(v) =>
      var stripped := StripTrailingSlashes(v);
      if stripped != "" then stripped else DefaultBaseUrl
  }

  function MixedContentMessage(baseUrl: string): string {
    "Frontend is served over HTTPS but backend base URL is HTTP (" + baseUrl + "). "
    + "Browsers block mixed content. Set REACT_APP_BACKEND_BASE_URL to an HTTPS URL matching your backend "
    + "(e.g., https://<host>:3001)."
  }

  /** `checkMixedContent`: fails exactly when the page was loaded over HTTPS
      and the backend is addressed over plain HTTP. Without a window the
      protocol reads as "", which never equals "https:". */
  function CheckMixedContent(baseUrl: string, windowProtocol: Option<string>): (r: Outcome<ApiError>)
    ensures r.Fail? <==> windowProtocol == Some("https:") && StartsWith(baseUrl, "http://")
    ensures r.Fail? ==> r.error == ApiError(MixedContentMessage(baseUrl), None)
  {
    match windowProtocol
    case Some(locProto) =>
      if locProto == "https:" && StartsWith(baseUrl, "http://") then
        Fail(ApiError(MixedContentMessage(baseUrl), None))
      else Pass
    case None => Pass
  }

  /** A backend addressed over HTTPS always passes the guard, and so does any
      backend when the page is not on HTTPS. */
  lemma GuardPasses(baseUrl: string, windowProtocol: Option<string>)
    ensures StartsWith(baseUrl, "https://") ==> CheckMixedContent(baseUrl, windowProtocol).Pass?
    ensures windowProtocol != Some("https:") ==> CheckMixedContent(baseUrl, windowProtocol).Pass?
  {
    if StartsWith(baseUrl, "https://") {
      assert baseUrl[4] == 's';
      assert !StartsWith(baseUrl, "http://");
    }
  }

  /** The guard's message names the offending base URL. */
  lemma MixedContentMessageNamesUrl(baseUrl: string)
    ensures Contains(MixedContentMessage(baseUrl), baseUrl)
  {
    var a := "Frontend is served over HTTPS but backend base URL is HTTP (";
    var m := MixedContentMessage(baseUrl);
    assert m[|a|..|a| + |baseUrl|] == baseUrl;
    ContainsAt(m, baseUrl, |a|);
  }

  // ---------------------------------------------------------------------------
  // Responses and error messages
  // ---------------------------------------------------------------------------

  /** `res.ok`. */
  predicate IsOk(status: nat) {
    200 <= status < 300
  }

  /** The content type names JSON. */
  predicate IsJson(res: Response) {
    Contains(res.contentType.GetOr(""), "application/json")
  }

  /** The payload of `postJSON`/`getJSON`: the parsed body for a JSON
      response, and null for any other or for a body that fails to parse. */
  function ReadPayload(res: Response): (p: Option<Payload>)
    ensures p.Some? <==> IsJson(res) && res.json.Some?
    ensures p.Some? ==> p == res.json
  {
    if IsJson(res) then res.json else None
  }

  /** `i` is the first truthy candidate. */
  predicate FirstTruthyAt(candidates: seq<Option<string>>, i: int) {
    && 0 <= i < |candidates|
    && Truthy(candidates[i])
    && forall j | 0 <= j < i :: !Truthy(candidates[j])
  }

  /** `c0 || c1 || ... || fallback`: the first truthy candidate, else the
      fallback. */
  function FirstTruthy(candidates: seq<Option<string>>, fallback: string): (r: string)
    ensures forall i | FirstTruthyAt(candidates, i) :: r == candidates[i].value
    ensures (forall i | 0 <= i < |candidates| :: !Truthy(candidates[i])) ==> r == fallback
    ensures r != "" || fallback == ""
    decreases |candidates|
  {
    if candidates == [] then fallback
    else if Truthy(candidates[0]) then candidates[0].value
    else
      assert forall i | FirstTruthyAt(candidates, i) :: FirstTruthyAt(candidates[1..], i - 1);
      FirstTruthy(candidates[1..], fallback)
  }

  /** `payload?.error?.message`. */
  function ErrorFieldMessage(payload: Option<Payload>): Option<string> {
    if payload.Some? && payload.value.error.Some? then payload.value.error.value.message else None
  }

  /** `payload?.message`. */
  function MessageField(payload: Option<Payload>): Option<string> {
    if payload.Some? then payload.value.message else None
  }

  /** The message of a non-2xx response in `postJSON`/`getJSON`. */
  function StatusErrorMessage(payload: Option<Payload>, status: nat): string {
    FirstTruthy([ErrorFieldMessage(payload), MessageField(payload)],
                "Request failed with status " + DecimalString(status))
  }

  /** The priority order of `postJSON`/`getJSON`: `error.message`, then
      `message`, then the status text; the message is never empty. */
  lemma StatusErrorPriority(payload: Option<Payload>, status: nat)
    ensures var m := StatusErrorMessage(payload, status);
      && m != ""
      && (Truthy(ErrorFieldMessage(payload)) ==> m == ErrorFieldMessage(payload).value)
      && (!Truthy(ErrorFieldMessage(payload)) && Truthy(MessageField(payload)) ==> m == MessageField(payload).value)
      && (!Truthy(ErrorFieldMessage(payload)) && !Truthy(MessageField(payload))
          ==> m == "Request failed with status " + DecimalString(status))
  {
    var cs := [ErrorFieldMessage(payload), MessageField(payload)];
    if Truthy(cs[0]) {
      assert FirstTruthyAt(cs, 0);
    } else if Truthy(cs[1]) {
      assert FirstTruthyAt(cs, 1);
    }
  }

  /** The hint added to a transport failure in `postJSON`/`getJSON`. */
  function ReachHint(url: string): string {
    "Failed to reach " + url + ". Ensure the backend is running and CORS/base URL are configured. "
    + "If using a preview, set REACT_APP_BACKEND_BASE_URL to your backend origin (e.g., https://<host>:3001)."
  }

  /** A rejected `fetch`: its message, or a default, followed by the hint. */
  function TransportError(details: Option<string>, url: string): ApiError {
    ApiError(FirstTruthy([details], "Network request failed.") + " " + ReachHint(url), None)
  }

  // ---------------------------------------------------------------------------
  // The JSON helpers
  // ---------------------------------------------------------------------------

  /** What a `postJSON`/`getJSON` call promises: the guard runs first and, when
      it fails, nothing is sent and its error is returned as is; otherwise the
      request is sent once, a transport failure is wrapped with the hint, a
      non-2xx response fails with the chosen message and its status, and a 2xx
      response yields the payload unchanged. */
  predicate FetchJsonContract(env: Environment, verb: Verb, path: string, body: Option<RequestBody>,
                              fetch: FetchOutcome, r: Result<Option<Payload>, ApiError>, sent: Option<Request>)
  {
    var base := BaseUrl(env.backendBaseUrl);
    var url := base + path;
    var guard := CheckMixedContent(base, env.windowProtocol);
    && (sent.Some? <==> guard.Pass?)
    && (guard.Fail? ==> r == Failure(guard.error))
    && (guard.Pass? ==>
          && sent == Some(Request(verb, url, body))
          && match fetch
             case NetworkFailure(details) => r == Failure(TransportError(details, url))
             case Received(res) =>
               if IsOk(res.status) then r == Success(ReadPayload(res))
               else r == Failure(ApiError(StatusErrorMessage(ReadPayload(res), res.status), Some(res.status))))
  }

  /** The steps shared by `postJSON` and `getJSON`. */
  method FetchJson(env: Environment, verb: Verb, path: string, body: Option<RequestBody>, fetch: FetchOutcome)
    returns (r: Result<Option<Payload>, ApiError>, sent: Option<Request>)
    ensures FetchJsonContract(env, verb, path, body, fetch, r, sent)
    ensures r.Failure? ==> r.error.message != ""
  {
    var base := BaseUrl(env.backendBaseUrl);
    var url := base + path;
    var guard := CheckMixedContent(base, env.windowProtocol);
    if guard.Fail? {
      return Failure(guard.error), None;
    }
    sent := Some(Request(verb, url, body));
    match fetch {
      case NetworkFailure(details) =>
        r := Failure(TransportError(details, url));
      case Received(res) =>
        var payload := ReadPayload(res);
        if !IsOk(res.status) {
          var message := StatusErrorMessage(payload, res.status);
          r := Failure(ApiError(message, Some(res.status)));
        } else {
          r := Success(payload);
        }
    }
  }

  /** `postJSON`. */
  method PostJson(env: Environment, path: string, body: RequestBody, fetch: FetchOutcome)
    returns (r: Result<Option<Payload>, ApiError>, sent: Option<Request>)
    ensures FetchJsonContract(env, Post, path, Some(body), fetch, r, sent)
    ensures r.Failure? ==> r.error.message != ""
  {
    r, sent := FetchJson(env, Post, path, Some(body), fetch);
  }

  /** `getJSON`. */
  method GetJson(env: Environment, path: string, fetch: FetchOutcome)
    returns (r: Result<Option<Payload>, ApiError>, sent: Option<Request>)
    ensures FetchJsonContract(env, Get, path, None, fetch, r, sent)
    ensures r.Failure? ==> r.error.message != ""
  {
    r, sent := FetchJson(env, Get, path, None, fetch);
  }

  /** `getHello`: a `getJSON` of `/api/hello`. */
  method GetHello(env: Environment, fetch: FetchOutcome)
    returns (r: Result<Option<Payload>, ApiError>, sent: Option<Request>)
    ensures FetchJsonContract(env, Get, "/api/hello", None, fetch, r, sent)
  {
    r, sent := GetJson(env, "/api/hello", fetch);
  }

  /** Under the helpers' contract, a call that reaches the backend succeeds
      exactly on a 2xx status; a response that is not JSON, or whose JSON does
      not parse, fails with the status text; and every error but the guard's
      comes after the request was sent. */
  lemma FetchJsonOutcomes(env: Environment, verb: Verb, path: string, body: Option<RequestBody>,
                          fetch: FetchOutcome, r: Result<Option<Payload>, ApiError>, sent: Option<Request>)
    requires FetchJsonContract(env, verb, path, body, fetch, r, sent)
    ensures r.Success? <==> sent.Some? && fetch.Received? && IsOk(fetch.response.status)
    ensures sent.Some? && fetch.Received? && !IsOk(fetch.response.status)
            && (!IsJson(fetch.response) || fetch.response.json.None?)
            ==> r == Failure(ApiError("Request failed with status " + DecimalString(fetch.response.status),
                                      Some(fetch.response.status)))
    ensures r.Failure? ==> r.error.message != ""
  {
    var base := BaseUrl(env.backendBaseUrl);
    var guard := CheckMixedContent(base, env.windowProtocol);
    if guard.Pass? && fetch.Received? {
      StatusErrorPriority(ReadPayload(fetch.response), fetch.response.status);
    }
  }

  // ---------------------------------------------------------------------------
  // The validated operations
  // ---------------------------------------------------------------------------

  /** `!value || !value.trim()`: the field is missing, empty or whitespace. */
  predicate MissingOrBlank(value: Option<string>) {
    value.None? || AllWhitespace(value.value)
  }

  /** What `postGenerate`, `postExplain` and `postDebug` promise: a missing or
      blank required field fails with the validation message and sends
      nothing; otherwise the call is a `postJSON` of the body. */
  predicate ValidatedPostContract(env: Environment, field: Option<string>, missing: string, path: string,
                                  body: RequestBody, fetch: FetchOutcome,
                                  r: Result<Option<Payload>, ApiError>, sent: Option<Request>)
  {
    if MissingOrBlank(field) then r == Failure(ApiError(missing, None)) && sent.None?
    else FetchJsonContract(env, Post, path, Some(body), fetch, r, sent)
  }

  /** The check the three operations make before any request. */
  function RequireField(value: Option<string>, missing: string): (r: Outcome<ApiError>)
    ensures r.Fail? <==> MissingOrBlank(value)
    ensures r.Fail? ==> r.error == ApiError(missing, None)
  {
    TrimEmptyIffBlank(value.GetOr(""));
    if value.None? || value.value == "" || Trim(value.value) == "" then Fail(ApiError(missing, None)) else Pass
  }

  /** `postGenerate`. */
  method PostGenerate(env: Environment, prompt: Option<string>, language: Option<string>,
                      systemPrompt: Option<string>, model: Option<string>, fetch: FetchOutcome)
    returns (r: Result<Option<Payload>, ApiError>, sent: Option<Request>)
    ensures ValidatedPostContract(env, prompt, "Prompt is required.", "/generate",
                                  GenerateBody(prompt.GetOr(""), language, systemPrompt, model), fetch, r, sent)
    ensures r.Failure? ==> r.error.message != ""
  {
    var check := RequireField(prompt, "Prompt is required.");
    if check.Fail? {
      return Failure(check.error), None;
    }
    r, sent := PostJson(env, "/generate", GenerateBody(prompt.value, language, systemPrompt, model), fetch);
  }

  /** `postExplain`. */
  method PostExplain(env: Environment, code: Option<string>, language: Option<string>,
                     systemPrompt: Option<string>, model: Option<string>, fetch: FetchOutcome)
    returns (r: Result<Option<Payload>, ApiError>, sent: Option<Request>)
    ensures ValidatedPostContract(env, code, "Code is required.", "/explain",
                                  ExplainBody(code.GetOr(""), language, systemPrompt, model), fetch, r, sent)
    ensures r.Failure? ==> r.error.message != ""
  {
    var check := RequireField(code, "Code is required.");
    if check.Fail? {
      return Failure(check.error), None;
    }
    r, sent := PostJson(env, "/explain", ExplainBody(code.value, language, systemPrompt, model), fetch);
  }

  /** `postDebug`. */
  method PostDebug(env: Environment, code: Option<string>, language: Option<string>, error: Option<string>,
                   systemPrompt: Option<string>, model: Option<string>, fetch: FetchOutcome)
    returns (r: Result<Option<Payload>, ApiError>, sent: Option<Request>)
    ensures ValidatedPostContract(env, code, "Code is required.", "/debug",
                                  DebugBody(code.GetOr(""), language, error, systemPrompt, model), fetch, r, sent)
    ensures r.Failure? ==> r.error.message != ""
  {
    var check := RequireField(code, "Code is required.");
    if check.Fail? {
      return Failure(check.error), None;
    }
    r, sent := PostJson(env, "/debug", DebugBody(code.value, language, error, systemPrompt, model), fetch);
  }

  /** Validation comes before the guard: a blank field fails with the
      validation message even where the guard would also fail. */
  lemma ValidationBeforeGuard(env: Environment, field: Option<string>, missing: string, path: string,
                              body: RequestBody, fetch: FetchOutcome,
                              r: Result<Option<Payload>, ApiError>, sent: Option<Request>)
    requires ValidatedPostContract(env, field, missing, path, body, fetch, r, sent)
    ensures MissingOrBlank(field) ==> r.error.message == missing && sent.None?
    ensures !MissingOrBlank(field) && CheckMixedContent(BaseUrl(env.backendBaseUrl), env.windowProtocol).Fail?
            ==> r == Failure(ApiError(MixedContentMessage(BaseUrl(env.backendBaseUrl)), None)) && sent.None?
  {
  }

  // ---------------------------------------------------------------------------
  // The health probe
  // ---------------------------------------------------------------------------

  /** The hint of every error thrown inside the health probe's `try`. */
  function HealthHint(url: string): string {
    "Unable to reach " + url + ". Set REACT_APP_BACKEND_BASE_URL to your backend origin (e.g., https://<host>:3001)."
  }

  /** The probe's payload: the parsed body for a JSON response that parses,
      and `{}` otherwise. */
  function HealthPayload(res: Response): Payload {
    if IsJson(res) then res.json.GetOr(EmptyPayload) else EmptyPayload
  }

  /** The message of a non-2xx probe: `message` first, then `error.message`,
      then the status text. */
  function HealthFailureMessage(payload: Payload, status: nat): string {
    FirstTruthy([MessageField(Some(payload)), ErrorFieldMessage(Some(payload))],
                "Health check failed (" + DecimalString(status) + ").")
  }

  /** The probe's priority order is the reverse of the helpers': when a
      payload holds two different truthy messages, the probe and the helpers
      report different ones. */
  lemma HealthPriority(payload: Payload, status: nat)
    ensures Truthy(payload.message) ==> HealthFailureMessage(payload, status) == payload.message.value
    ensures !Truthy(payload.message) && Truthy(ErrorFieldMessage(Some(payload)))
            ==> HealthFailureMessage(payload, status) == ErrorFieldMessage(Some(payload)).value
    ensures Truthy(payload.message) && Truthy(ErrorFieldMessage(Some(payload)))
            && payload.message != ErrorFieldMessage(Some(payload))
            ==> HealthFailureMessage(payload, status) != StatusErrorMessage(Some(payload), status)
  {
    var hs := [MessageField(Some(payload)), ErrorFieldMessage(Some(payload))];
    var ss := [ErrorFieldMessage(Some(payload)), MessageField(Some(payload))];
    if Truthy(hs[0]) {
      assert FirstTruthyAt(hs, 0);
    } else if Truthy(hs[1]) {
      assert FirstTruthyAt(hs, 1);
    }
    if Truthy(ss[0]) {
      assert FirstTruthyAt(ss, 0);
    }
  }

  /** Any error caught inside the probe's `try`: its message, or a default,
      followed by the probe's hint; the status is not carried over. */
  function HealthWrap(details: Option<string>, url: string): ApiError {
    ApiError(FirstTruthy([details], "Network error during health check.") + " " + HealthHint(url), None)
  }

  /** `getHealth`: a GET of the root path. The guard sits outside the `try`,
      so its error is returned unwrapped; every failure inside, the non-2xx
      status included, is re-wrapped with the hint and loses its status. */
  method GetHealth(env: Environment, fetch: FetchOutcome) returns (r: Result<Payload, ApiError>, sent: Option<Request>)
    ensures var base := BaseUrl(env.backendBaseUrl);
      var url := base + "/";
      var guard := CheckMixedContent(base, env.windowProtocol);
      && (sent.Some? <==> guard.Pass?)
      && (guard.Fail? ==> r == Failure(guard.error))
      && (guard.Pass? ==>
            && sent == Some(Request(Get, url, None))
            && match fetch
               case NetworkFailure(details) => r == Failure(HealthWrap(details, url))
               case Received(res) =>
                 if IsOk(res.status) then r == Success(HealthPayload(res))
                 else r == Failure(HealthWrap(Some(HealthFailureMessage(HealthPayload(res), res.status)), url)))
    ensures r.Failure? ==> r.error.status.None? && r.error.message != ""
  {
    var base := BaseUrl(env.backendBaseUrl);
    var url := base + "/";
    var guard := CheckMixedContent(base, env.windowProtocol);
    if guard.Fail? {
      return Failure(guard.error), None;
    }
    sent := Some(Request(Get, url, None));
    var caught: Option<string>;
    match fetch {
      case NetworkFailure(details) =>
        caught := details;
      case Received(res) =>
        var payload := HealthPayload(res);
        if IsOk(res.status) {
          return Success(payload), sent;
        }
        caught := Some(HealthFailureMessage(payload, res.status));
    }
    r := Failure(HealthWrap(caught, url));
  }

  /** A non-2xx JSON response whose body is `{"error":{"message":msg}}`
      makes the probe fail with msg followed by the hint. */
  lemma HealthErrorMessage(url: string, res: Response, msg: string)
    requires !IsOk(res.status) && msg != ""
    requires IsJson(res)
    requires res.json == Some(Payload(None, None, Some(ErrorBody(Some(msg)))))
    ensures HealthWrap(Some(HealthFailureMessage(HealthPayload(res), res.status)), url)
            == ApiError(msg + " " + HealthHint(url), None)
  {
    assert HealthPayload(res) == res.json.value;
    HealthPriority(res.json.value, res.status);
    assert FirstTruthyAt([Some(msg)], 0);
  }
}
