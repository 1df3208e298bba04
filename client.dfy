/** The Datagen tool-execution client (`datagen_sdk/client.py`): configuration
    resolved at construction, and `execute_tool`, which posts one request per
    attempt, classifies what came back and retries transient failures with an
    exponential backoff.

    The HTTP transport is a parameter: a function from the request and the
    attempt index (0, 1, ...) to what that attempt yields, as a queue of mocked
    responses would. Sleeping is recorded, not performed: each run returns the
    delays it slept. A negative length makes `time.sleep` raise `ValueError`
    without sleeping, and that length is not recorded. */
module Client {
  import opened Wrappers
  import opened JsonValue
  import opened Text

  // ---------------------------------------------------------------- errors

  /** Why a `DatagenHttpError` was raised: an HTTP status of 400 or more (other
      than 401/403), or a decoded body whose outer `success` is not truthy. */
  datatype HttpFailure =
    | Status(code: int, text: string)
    | UnexpectedResponse(payload: Json)

  /** Every exception `DatagenClient` can raise. The first four are the SDK's
      own family; the others are foreign exceptions that reach the caller. */
  datatype Exc =
    | DatagenError(message: string)
    | DatagenAuthError(message: string)
    | DatagenToolError(detail: Json)
    | DatagenHttpError(failure: HttpFailure)
    | RequestException(message: string)
    | OtherException(message: string)
    | AttributeError(message: string)
    | ValueError(message: string)

  /** The exceptions the retry handler catches (network failures and HTTP
      errors), and so the only ones an attempt is retried for. */
  predicate Retryable(e: Exc) {
    e.RequestException? || e.DatagenHttpError?
  }

  const MissingKeyMessage := "API key missing. Set DATAGEN_API_KEY or pass api_key."
  const UnknownErrorMessage := "Unknown error during tool execution"
  const EmptyNameMessage := "tool_alias_name is required"
  const ToolFailureMessage := "Tool reported failure"
  /** What `time.sleep` raises for a negative length. */
  const NegativeSleepMessage := "sleep length must be non-negative"

  // ----------------------------------------------------------- configuration

  const ApiKeyVariable := "DATAGEN_API_KEY"
  const DefaultBaseUrl := "http://localhost:3001"
  const DefaultTimeout := 30
  const DefaultRetries := 0
  const DefaultBackoffSeconds := 0.5
  const ExecutePath := "/api/tools/execute"

  /** The key the constructor settles on: the explicit key when it is
      non-empty, else the `DATAGEN_API_KEY` variable; refused when neither is
      present and non-empty. */
  function ResolveApiKey(explicit: Option<string>, environ: map<string, string>): (r: Result<string, Exc>)
    ensures r.Success? ==> r.value != ""
    ensures r.Failure? ==> r.error == DatagenAuthError(MissingKeyMessage)
    ensures explicit.Some? && explicit.value != "" ==> r == Success(explicit.value)
    ensures (explicit.None? || explicit.value == "") ==>
              (r.Success? <==> ApiKeyVariable in environ && environ[ApiKeyVariable] != "")
    ensures (explicit.None? || explicit.value == "") && r.Success? ==> r.value == environ[ApiKeyVariable]
  {
    var key := if explicit.Some? && explicit.value != "" then explicit
               else if ApiKeyVariable in environ then Some(environ[ApiKeyVariable])
               else None;
    if key.None? || key.value == "" then Failure(DatagenAuthError(MissingKeyMessage))
    else Success(key.value)
  }

  /** The base URL without its trailing slashes. */
  function StripTrailingSlashes(url: string): (r: string)
    ensures r <= url
    ensures r == "" || r[|r| - 1] != '/'
    ensures forall i :: |r| <= i < |url| ==> url[i] == '/'
  {
    if url != "" && url[|url| - 1] == '/' then StripTrailingSlashes(url[..|url| - 1]) else url
  }

  /** The configuration a constructed client holds. */
  datatype Settings = Settings(apiKey: string, baseUrl: string, timeout: int, retries: int, backoffSeconds: real)

  // ---------------------------------------------------------------- transport

  /** What `resp.json()` gives: a decoded value, or a decoding failure (on the
      `requests` releases that raise `requests.exceptions.JSONDecodeError`,
      which is a `RequestException`). */
  datatype Body = Decoded(payload: Json) | Undecodable(reason: string)

  /** What one call of `requests.post` yields. */
  datatype Attempt =
    | ConnectionFailure(reason: string)   // a `RequestException`: timeout, DNS, refused connection
    | Crash(reason: string)               // any other exception raised by the call
    | Response(status: int, text: string, body: Body)

  datatype Request = Request(url: string, headers: map<string, string>, body: Json, timeout: int)

  /** The transport answers attempt `k` of a call with `transport(request, k)`. */
  type Transport = (Request, nat) -> Attempt

  /** What `execute_tool` ends with: the returned value or the raised exception. */
  datatype Outcome = Returned(value: Json) | Raised(error: Exc)

  /** A whole call: its outcome, how many requests it sent, and the lengths it
      completed `time.sleep` calls slept, in order (a refused negative length
      is not among them). */
  datatype Run = Run(outcome: Outcome, attempts: nat, delays: seq<real>)

  predicate RetryableFailure(o: Outcome) {
    o.Raised? && Retryable(o.error)
  }

  /** The request body, URL and headers `execute_tool` builds; missing and empty
      parameters are both sent as an empty dict. */
  function BuildRequest(cfg: Settings, toolAliasName: string, parameters: Option<map<string, Json>>): Request {
    var params := if parameters.Some? && |parameters.value| != 0 then parameters.value else map[];
    Request(
      cfg.baseUrl + ExecutePath,
      map["X-API-Key" := cfg.apiKey, "Content-Type" := "application/json"],
      Object(map["tool_alias_name" := Str(toolAliasName), "parameters" := Object(params)]),
      cfg.timeout)
  }

  // ----------------------------------------------------------- classification

  /** Reading a decoded body of a response below 400: the outer envelope, then
      the tool's own `data` envelope. `.get` on anything but a dict raises
      `AttributeError`, which no handler catches. */
  function Unwrap(payload: Json): Outcome
  {
    if !payload.Object? then
      Raised(AttributeError("'" + TypeName(payload) + "' object has no attribute 'get'"))
    else if !Truthy(Get(payload.fields, "success", Bool(false))) then
      Raised(DatagenHttpError(UnexpectedResponse(payload)))
    else
      var data := Get(payload.fields, "data", Object(map[]));
      if !data.Object? then
        Raised(AttributeError("'" + TypeName(data) + "' object has no attribute 'get'"))
      else if !Truthy(Get(data.fields, "success", Bool(false))) then
        var error := Get(data.fields, "error", Null);
        Raised(DatagenToolError(if Truthy(error) then error else Str(ToolFailureMessage)))
      else
        Returned(Get(data.fields, "result", Null))
  }

  /** One pass through the `try` block of the attempt loop. */
  function Classify(a: Attempt): Outcome
  {
    match a
    case ConnectionFailure(reason) => Raised(RequestException(reason))
    case Crash(reason) => Raised(OtherException(reason))
    case Response(status, text, body) =>
      if status == 401 || status == 403 then Raised(DatagenAuthError("Auth failed: " + text))
      else if status >= 400 then Raised(DatagenHttpError(Status(status, text)))
      else match body
        case Undecodable(reason) => Raised(RequestException(reason))
        case Decoded(payload) => Unwrap(payload)
  }

  // ------------------------------------------------------------ retry policy

  /** How attempt `k` of a call with `request` ends, taken on its own. */
  function Step(request: Request, transport: Transport, k: nat): Outcome {
    Classify(transport(request, k))
  }

  function Pow2(k: nat): (p: nat)
    ensures p >= 1
  {
    if k == 0 then 1 else 2 * Pow2(k - 1)
  }

  /** The backoff doubled `k` times: the sleep before the retry that follows
      attempt `k`. */
  function Delay(backoffSeconds: real, k: nat): real {
    backoffSeconds * (Pow2(k) as real)
  }

  /** The attempt loop from attempt `k` on, for `k <= retries`: a retryable
      failure before the last attempt sleeps and goes on, anything else ends the
      call (the bare `raise` re-raises the failure of the last attempt). */
  function RunFrom(cfg: Settings, request: Request, transport: Transport, k: nat): Run
    requires k <= cfg.retries
    decreases cfg.retries - k
  {
    var step := Step(request, transport, k);
    if !RetryableFailure(step) || k == cfg.retries then Run(step, 1, [])
    else if Delay(cfg.backoffSeconds, k) < 0.0 then Run(Raised(ValueError(NegativeSleepMessage)), 1, [])
    else
      var rest := RunFrom(cfg, request, transport, k + 1);
      Run(rest.outcome, rest.attempts + 1, [Delay(cfg.backoffSeconds, k)] + rest.delays)
  }

  /** The whole of `execute_tool`. With `retries < 0` the loop runs no attempt
      and the call ends in the base `DatagenError`. */
  function Execute(cfg: Settings, toolAliasName: string, parameters: Option<map<string, Json>>,
                   transport: Transport): Run
  {
    if toolAliasName == "" then Run(Raised(ValueError(EmptyNameMessage)), 0, [])
    else if cfg.retries < 0 then Run(Raised(DatagenError(UnknownErrorMessage)), 0, [])
    else RunFrom(cfg, BuildRequest(cfg, toolAliasName, parameters), transport, 0)
  }

  /** `Run(o, n, ds)` continued by `rest`, after `n` attempts that slept `ds`. */
  function Then(attempts: nat, delays: seq<real>, rest: Run): Run {
    Run(rest.outcome, attempts + rest.attempts, delays + rest.delays)
  }

  /** One turn of the attempt loop: attempt `k` either ends the call, or sleeps
      `Delay(b, k)` and hands over to attempt `k + 1`. */
  lemma RunFromUnfold(cfg: Settings, request: Request, transport: Transport, k: nat,
                      attempts: nat, delays: seq<real>)
    requires k <= cfg.retries
    ensures var step := Step(request, transport, k);
      && (!RetryableFailure(step) || k == cfg.retries ==>
            Then(attempts, delays, RunFrom(cfg, request, transport, k)) == Run(step, attempts + 1, delays))
      && (RetryableFailure(step) && k < cfg.retries && Delay(cfg.backoffSeconds, k) < 0.0 ==>
            Then(attempts, delays, RunFrom(cfg, request, transport, k))
              == Run(Raised(ValueError(NegativeSleepMessage)), attempts + 1, delays))
      && (RetryableFailure(step) && k < cfg.retries && Delay(cfg.backoffSeconds, k) >= 0.0 ==>
            Then(attempts, delays, RunFrom(cfg, request, transport, k))
              == Then(attempts + 1, delays + [Delay(cfg.backoffSeconds, k)], RunFrom(cfg, request, transport, k + 1)))
  {
    var step := Step(request, transport, k);
    if RetryableFailure(step) && k < cfg.retries && Delay(cfg.backoffSeconds, k) >= 0.0 {
      var rest := RunFrom(cfg, request, transport, k + 1);
      assert delays + ([Delay(cfg.backoffSeconds, k)] + rest.delays)
               == (delays + [Delay(cfg.backoffSeconds, k)]) + rest.delays;
    } else {
      assert delays + [] == delays;
    }
  }

  // ------------------------------------------------------------------ client

  class DatagenClient {
    const apiKey: string
    const baseUrl: string
    const timeout: int
    const retries: int
    const backoffSeconds: real

    /** The assignments of `__init__` once the key has been found. */
    constructor (key: string, baseUrl: string, timeout: int, retries: int, backoffSeconds: real)
      requires key != ""
      ensures this.apiKey == key && this.baseUrl == StripTrailingSlashes(baseUrl)
      ensures this.timeout == timeout && this.retries == retries && this.backoffSeconds == backoffSeconds
    {
      this.apiKey := key;
      this.baseUrl := StripTrailingSlashes(baseUrl);
      this.timeout := timeout;
      this.retries := retries;
      this.backoffSeconds := backoffSeconds;
    }

    function Config(): Settings {
      Settings(apiKey, baseUrl, timeout, retries, backoffSeconds)
    }

    /** `execute_tool`: runs the attempt loop against `transport` and returns
        the outcome, the number of requests sent and the delays slept. */
    method ExecuteTool(toolAliasName: string, parameters: Option<map<string, Json>>, transport: Transport)
      returns (outcome: Outcome, attempts: nat, delays: seq<real>)
      ensures Run(outcome, attempts, delays) == Execute(Config(), toolAliasName, parameters, transport)
    {
      if toolAliasName == "" {
        return Raised(ValueError(EmptyNameMessage)), 0, [];
      }
      var cfg := Config();
      var request := BuildRequest(cfg, toolAliasName, parameters);
      ghost var run := Execute(cfg, toolAliasName, parameters, transport);
      var lastExc: Option<Exc> := None;
      attempts, delays := 0, [];
      var attempt: nat := 0;
      while attempt < retries + 1
        invariant attempt == 0 || attempt <= retries
        invariant attempts == attempt && |delays| == attempt
        invariant lastExc.None? <==> attempt == 0
        invariant attempt <= retries ==> run == Then(attempt, delays, RunFrom(cfg, request, transport, attempt))
        decreases retries + 1 - attempt
      {
        var step := Step(request, transport, attempt);
        RunFromUnfold(cfg, request, transport, attempt, attempts, delays);
        attempts := attempts + 1;
        if !RetryableFailure(step) {
          return step, attempts, delays;
        }
        lastExc := Some(step.error);
        if attempt < retries {
          var pause := Delay(backoffSeconds, attempt);
          if pause < 0.0 {
            return Raised(ValueError(NegativeSleepMessage)), attempts, delays;
          }
          delays := delays + [pause];
          attempt := attempt + 1;
          continue;
        }
        return step, attempts, delays;
      }
      // `last_exc` is set only on paths that go on to a further attempt or
      // raise at once, so the loop falls through only when it ran no attempt.
      assert lastExc.None?;
      outcome := Raised(DatagenError(UnknownErrorMessage));
    }
  }

  /** `DatagenClient(...)`: fails with `DatagenAuthError` when no key is found,
      and otherwise holds the resolved key and the normalised base URL. */
  method NewClient(apiKey: Option<string>, environ: map<string, string>, baseUrl: string,
                   timeout: int, retries: int, backoffSeconds: real)
    returns (r: Result<DatagenClient, Exc>)
    ensures r.Failure? <==> ResolveApiKey(apiKey, environ).Failure?
    ensures r.Failure? ==> r.error == DatagenAuthError(MissingKeyMessage)
    ensures r.Success? ==> fresh(r.value)
    ensures r.Success? ==>
              r.value.Config() == Settings(ResolveApiKey(apiKey, environ).value, StripTrailingSlashes(baseUrl),
                                           timeout, retries, backoffSeconds)
  {
    var key := ResolveApiKey(apiKey, environ);
    if key.Failure? {
      return Failure(key.error);
    }
    var client := new DatagenClient(key.value, baseUrl, timeout, retries, backoffSeconds);
    return Success(client);
  }

  /** `DatagenClient(api_key)` with every other argument left at its default:
      the local base URL, a 30-second timeout, no retries and a half-second
      backoff. */
  method NewDefaultClient(apiKey: Option<string>, environ: map<string, string>)
    returns (r: Result<DatagenClient, Exc>)
    ensures r.Failure? <==> ResolveApiKey(apiKey, environ).Failure?
    ensures r.Failure? ==> r.error == DatagenAuthError(MissingKeyMessage)
    ensures r.Success? ==> fresh(r.value)
    ensures r.Success? ==>
              r.value.Config() == Settings(ResolveApiKey(apiKey, environ).value, DefaultBaseUrl,
                                           DefaultTimeout, DefaultRetries, DefaultBackoffSeconds)
  {
    assert DefaultBaseUrl[|DefaultBaseUrl| - 1] == '1';
    r := NewClient(apiKey, environ, DefaultBaseUrl, DefaultTimeout, DefaultRetries, DefaultBackoffSeconds);
  }
}
