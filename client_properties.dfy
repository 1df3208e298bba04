/** What `execute_tool` and `DatagenClient(...)` promise, proved about the
    model in module Client. */
module ClientProperties {
  import opened Wrappers
  import opened JsonValue
  import opened Client

  // ----------------------------------------------------------- construction

  /** The normalised base URL is a fixed point of the normalisation. */
  lemma {:induction false} StripTrailingSlashesIdempotent(url: string)
    ensures StripTrailingSlashes(StripTrailingSlashes(url)) == StripTrailingSlashes(url)
  {
    var r := StripTrailingSlashes(url);
    assert r == "" || r[|r| - 1] != '/';
  }

  /** Every trailing `/` goes, however many there are, and nothing else does. */
  lemma {:induction false} StripTrailingSlashesRemovesRun(url: string, n: nat)
    requires url == "" || url[|url| - 1] != '/'
    ensures StripTrailingSlashes(url + seq(n, _ => '/')) == url
    decreases n
  {
    var slashes := seq(n, _ => '/');
    if n > 0 {
      assert (url + slashes)[..|url + slashes| - 1] == url + seq(n - 1, _ => '/');
      StripTrailingSlashesRemovesRun(url, n - 1);
    } else {
      assert url + slashes == url;
    }
  }

  // --------------------------------------------------------- classification

  /** 401 and 403, and only they, give `DatagenAuthError`. */
  lemma ClassifyAuth(a: Attempt)
    ensures (Classify(a).Raised? && Classify(a).error.DatagenAuthError?)
              <==> a.Response? && (a.status == 401 || a.status == 403)
    ensures a.Response? && (a.status == 401 || a.status == 403) ==>
              Classify(a) == Raised(DatagenAuthError("Auth failed: " + a.text))
  {
  }

  /** Any other status of 400 or more gives `DatagenHttpError` carrying that
      status and the response text. */
  lemma ClassifyStatus(a: Attempt)
    ensures (Classify(a).Raised? && Classify(a).error.DatagenHttpError? && Classify(a).error.failure.Status?)
              <==> a.Response? && a.status >= 400 && a.status != 401 && a.status != 403
    ensures a.Response? && a.status >= 400 && a.status != 401 && a.status != 403 ==>
              Classify(a) == Raised(DatagenHttpError(Status(a.status, a.text)))
  {
  }

  /** The attempts the loop retries: a network failure, an undecodable body,
      a status of 400 or more other than 401/403, and a decoded dict whose
      outer `success` is absent or falsy. */
  lemma ClassifyRetryable(a: Attempt)
    ensures RetryableFailure(Classify(a)) <==>
              || a.ConnectionFailure?
              || (a.Response? && a.status >= 400 && a.status != 401 && a.status != 403)
              || (a.Response? && a.status < 400 && a.body.Undecodable?)
              || (a.Response? && a.status < 400 && a.body.Decoded? && a.body.payload.Object?
                  && !Truthy(Get(a.body.payload.fields, "success", Bool(false))))
  {
  }

  /** A decoded dict below 400 whose outer `success` is absent or falsy, and
      nothing else, raises `DatagenHttpError` for an unexpected response, and
      the error carries the whole payload. */
  lemma ClassifyUnexpected(a: Attempt)
    ensures (Classify(a).Raised? && Classify(a).error.DatagenHttpError?
             && Classify(a).error.failure.UnexpectedResponse?)
              <==> a.Response? && a.status < 400 && a.body.Decoded? && a.body.payload.Object?
                   && !Truthy(Get(a.body.payload.fields, "success", Bool(false)))
    ensures a.Response? && a.status < 400 && a.body.Decoded? && a.body.payload.Object?
            && !Truthy(Get(a.body.payload.fields, "success", Bool(false))) ==>
              Classify(a) == Raised(DatagenHttpError(UnexpectedResponse(a.body.payload)))
  {
  }

  /** A response below 400 returns exactly when both envelopes report success,
      and then returns `data.result` (`None` when absent). */
  lemma ClassifyReturns(a: Attempt)
    ensures Classify(a).Returned? <==>
              && a.Response? && a.status < 400 && a.status != 401 && a.status != 403
              && a.body.Decoded? && a.body.payload.Object?
              && Truthy(Get(a.body.payload.fields, "success", Bool(false)))
              && Get(a.body.payload.fields, "data", Object(map[])).Object?
              && Truthy(Get(Get(a.body.payload.fields, "data", Object(map[])).fields, "success", Bool(false)))
    ensures Classify(a).Returned? ==>
              Classify(a).value == Get(Get(a.body.payload.fields, "data", Object(map[])).fields, "result", Null)
  {
  }

  /** An accepted envelope whose tool failed gives `DatagenToolError` with the
      inner `error` when it is truthy, else "Tool reported failure". */
  lemma ToolFailureDetail(fields: map<string, Json>, data: map<string, Json>)
    requires Truthy(Get(fields, "success", Bool(false)))
    requires Get(fields, "data", Object(map[])) == Object(data)
    requires !Truthy(Get(data, "success", Bool(false)))
    ensures Unwrap(Object(fields)) ==
              Raised(DatagenToolError(if "error" in data && Truthy(data["error"]) then data["error"]
                                      else Str(ToolFailureMessage)))
  {
  }

  /** An accepted envelope with no `data` key is a tool failure, not a
      protocol error, and so it is not retried. */
  lemma MissingDataIsToolFailure(fields: map<string, Json>)
    requires Truthy(Get(fields, "success", Bool(false)))
    requires "data" !in fields
    ensures Unwrap(Object(fields)) == Raised(DatagenToolError(Str(ToolFailureMessage)))
    ensures !RetryableFailure(Unwrap(Object(fields)))
  {
  }

  /** A decoded body that is not a dict raises `AttributeError`, which escapes
      the loop unretried. */
  lemma NonObjectPayloadEscapes(payload: Json)
    requires !payload.Object?
    ensures Unwrap(payload).Raised? && Unwrap(payload).error.AttributeError?
    ensures !RetryableFailure(Unwrap(payload))
  {
  }

  // ------------------------------------------------------------ the backoff

  lemma DelaySign(backoffSeconds: real, k: nat)
    ensures backoffSeconds >= 0.0 ==> Delay(backoffSeconds, k) >= 0.0
    ensures backoffSeconds < 0.0 ==> Delay(backoffSeconds, k) < 0.0
  {
    var p := Pow2(k) as real;
    assert p >= 1.0;
    if backoffSeconds >= 0.0 {
      assert backoffSeconds * p >= backoffSeconds * 1.0;
    } else {
      assert backoffSeconds * p <= backoffSeconds * 1.0;
    }
  }

  /** Each sleep is twice the one before: b, 2b, 4b, ... */
  lemma DelayDoubles(backoffSeconds: real, k: nat)
    ensures Delay(backoffSeconds, 0) == backoffSeconds
    ensures Delay(backoffSeconds, k + 1) == 2.0 * Delay(backoffSeconds, k)
  {
  }

  /** The sleeps of the first `n` retries. */
  function Backoffs(backoffSeconds: real, n: nat): seq<real> {
    seq(n, i requires 0 <= i < n => Delay(backoffSeconds, i))
  }

  // ------------------------------------------------------- the attempt loop

  /** The shape of the loop from attempt `k` on: every attempt before the last
      failed retryably, the outcome is the last attempt's, the loop stopped
      early only for a non-retryable outcome, and there is one sleep per retry,
      `Delay(b, j)` before the retry that follows attempt `j`. */
  lemma {:induction false} RunFromShape(cfg: Settings, request: Request, transport: Transport, k: nat)
    requires k <= cfg.retries && cfg.backoffSeconds >= 0.0
    ensures var r := RunFrom(cfg, request, transport, k);
      && 1 <= r.attempts <= cfg.retries + 1 - k
      && (forall j :: k <= j < k + r.attempts - 1 ==> RetryableFailure(Step(request, transport, j)))
      && r.outcome == Step(request, transport, k + r.attempts - 1)
      && (k + r.attempts - 1 < cfg.retries ==> !RetryableFailure(r.outcome))
      && |r.delays| == r.attempts - 1
      && (forall i :: 0 <= i < |r.delays| ==> r.delays[i] == Delay(cfg.backoffSeconds, k + i))
    decreases cfg.retries - k
  {
    var step := Step(request, transport, k);
    if RetryableFailure(step) && k < cfg.retries {
      DelaySign(cfg.backoffSeconds, k);
      RunFromShape(cfg, request, transport, k + 1);
      var rest := RunFrom(cfg, request, transport, k + 1);
      var r := RunFrom(cfg, request, transport, k);
      assert r == Run(rest.outcome, rest.attempts + 1, [Delay(cfg.backoffSeconds, k)] + rest.delays);
      forall j | k <= j < k + r.attempts - 1
        ensures RetryableFailure(Step(request, transport, j))
      {
        if j > k {
          assert k + 1 <= j < k + 1 + rest.attempts - 1;
        }
      }
      forall i | 0 <= i < |r.delays|
        ensures r.delays[i] == Delay(cfg.backoffSeconds, k + i)
      {
        if i > 0 {
          assert r.delays[i] == rest.delays[i - 1];
        }
      }
    }
  }

  /** The characterisation of a call that reaches the loop: the facts that
      decide its outcome, its attempt count and its sleeps. */
  ghost predicate Conforms(cfg: Settings, request: Request, transport: Transport, run: Run) {
    && 1 <= run.attempts <= cfg.retries + 1
    && (forall j :: 0 <= j < run.attempts - 1 ==> RetryableFailure(Step(request, transport, j)))
    && run.outcome == Step(request, transport, run.attempts - 1)
    && (run.attempts <= cfg.retries ==> !RetryableFailure(run.outcome))
    && run.delays == Backoffs(cfg.backoffSeconds, run.attempts - 1)
  }

  lemma {:induction false} ConformsUnique(cfg: Settings, request: Request, transport: Transport, r1: Run, r2: Run)
    requires Conforms(cfg, request, transport, r1) && Conforms(cfg, request, transport, r2)
    ensures r1 == r2
  {
    assert r1.attempts == r2.attempts;
  }

  /** With a name, a non-negative budget and a non-negative backoff, a run is
      the one `execute_tool` performs exactly when it meets `Conforms`. */
  lemma ExecuteIffConforms(cfg: Settings, toolAliasName: string, parameters: Option<map<string, Json>>,
                           transport: Transport, run: Run)
    requires toolAliasName != "" && cfg.retries >= 0 && cfg.backoffSeconds >= 0.0
    ensures (run == Execute(cfg, toolAliasName, parameters, transport))
              <==> Conforms(cfg, BuildRequest(cfg, toolAliasName, parameters), transport, run)
  {
    var request := BuildRequest(cfg, toolAliasName, parameters);
    var actual := Execute(cfg, toolAliasName, parameters, transport);
    RunFromShape(cfg, request, transport, 0);
    assert Conforms(cfg, request, transport, actual);
    if Conforms(cfg, request, transport, run) {
      ConformsUnique(cfg, request, transport, run, actual);
    }
  }

  // ----------------------------------------------------- bounds and shortcuts

  /** The attempt budget: never more than `retries + 1` requests, and none
      when the name is empty or the budget negative. */
  lemma AttemptBudget(cfg: Settings, toolAliasName: string, parameters: Option<map<string, Json>>,
                      transport: Transport)
    ensures var r := Execute(cfg, toolAliasName, parameters, transport);
      && r.attempts <= (if cfg.retries < 0 then 0 else cfg.retries + 1)
      && (r.attempts == 0 <==> toolAliasName == "" || cfg.retries < 0)
      && (r.attempts > 0 ==> |r.delays| == r.attempts - 1)
      && (forall i :: 0 <= i < |r.delays| ==> r.delays[i] == Delay(cfg.backoffSeconds, i))
  {
    if toolAliasName != "" && cfg.retries >= 0 {
      var request := BuildRequest(cfg, toolAliasName, parameters);
      if cfg.backoffSeconds >= 0.0 {
        RunFromShape(cfg, request, transport, 0);
      } else {
        DelaySign(cfg.backoffSeconds, 0);
      }
    }
  }

  /** An empty tool name raises `ValueError` before any request is sent. */
  lemma EmptyNameRaisesFirst(cfg: Settings, parameters: Option<map<string, Json>>, transport: Transport)
    ensures Execute(cfg, "", parameters, transport) == Run(Raised(ValueError(EmptyNameMessage)), 0, [])
  {
  }

  /** A negative `retries` runs no attempt and raises the base `DatagenError`. */
  lemma NegativeRetriesRunNothing(cfg: Settings, toolAliasName: string, parameters: Option<map<string, Json>>,
                                  transport: Transport)
    requires toolAliasName != "" && cfg.retries < 0
    ensures Execute(cfg, toolAliasName, parameters, transport) == Run(Raised(DatagenError(UnknownErrorMessage)), 0, [])
  {
  }

  /** `parameters=None` and `parameters={}` send the same request. */
  lemma ParametersDefaultToEmpty(cfg: Settings, toolAliasName: string)
    ensures BuildRequest(cfg, toolAliasName, None) == BuildRequest(cfg, toolAliasName, Some(map[]))
    ensures BuildRequest(cfg, toolAliasName, None).body
              == Object(map["tool_alias_name" := Str(toolAliasName), "parameters" := Object(map[])])
    ensures BuildRequest(cfg, toolAliasName, None).url == cfg.baseUrl + "/api/tools/execute"
  {
  }

  /** Non-empty parameters are sent as given, with the client's key and a JSON
      content type as headers and the client's timeout. */
  lemma ParametersSentAsGiven(cfg: Settings, toolAliasName: string, parameters: map<string, Json>)
    requires |parameters| != 0
    ensures var r := BuildRequest(cfg, toolAliasName, Some(parameters));
      && r.url == cfg.baseUrl + "/api/tools/execute"
      && r.headers == map["X-API-Key" := cfg.apiKey, "Content-Type" := "application/json"]
      && r.body == Object(map["tool_alias_name" := Str(toolAliasName), "parameters" := Object(parameters)])
      && r.timeout == cfg.timeout
  {
  }

  /** A retryable failure reaches the caller only once the budget is spent. */
  lemma RetryableEscapesOnlyWhenExhausted(cfg: Settings, toolAliasName: string,
                                          parameters: Option<map<string, Json>>, transport: Transport)
    ensures var r := Execute(cfg, toolAliasName, parameters, transport);
      RetryableFailure(r.outcome) ==> r.attempts == cfg.retries + 1
  {
    if toolAliasName != "" && cfg.retries >= 0 {
      var request := BuildRequest(cfg, toolAliasName, parameters);
      if cfg.backoffSeconds >= 0.0 {
        RunFromShape(cfg, request, transport, 0);
      } else {
        DelaySign(cfg.backoffSeconds, 0);
      }
    }
  }

  /** `n` retryable failures, then an attempt that is not one (a result, an
      auth error, a tool error, ...), with `n <= retries`: the call ends with
      that attempt's outcome after `n + 1` requests and `n` sleeps. */
  lemma StopsAtFirstNonRetryable(cfg: Settings, toolAliasName: string, parameters: Option<map<string, Json>>,
                                 transport: Transport, n: nat)
    requires toolAliasName != "" && n <= cfg.retries && (n > 0 ==> cfg.backoffSeconds >= 0.0)
    requires forall j :: 0 <= j < n ==>
               RetryableFailure(Step(BuildRequest(cfg, toolAliasName, parameters), transport, j))
    requires !RetryableFailure(Step(BuildRequest(cfg, toolAliasName, parameters), transport, n))
    ensures Execute(cfg, toolAliasName, parameters, transport)
              == Run(Step(BuildRequest(cfg, toolAliasName, parameters), transport, n), n + 1,
                     Backoffs(cfg.backoffSeconds, n))
  {
    var request := BuildRequest(cfg, toolAliasName, parameters);
    if n == 0 {
      assert Backoffs(cfg.backoffSeconds, 0) == [];
    } else {
      var candidate := Run(Step(request, transport, n), n + 1, Backoffs(cfg.backoffSeconds, n));
      assert Conforms(cfg, request, transport, candidate);
      ExecuteIffConforms(cfg, toolAliasName, parameters, transport, candidate);
    }
  }

  /** Every attempt fails retryably: exactly `retries + 1` requests, `retries`
      sleeps, and the last attempt's error is raised. */
  lemma ExhaustedRaisesLast(cfg: Settings, toolAliasName: string, parameters: Option<map<string, Json>>,
                            transport: Transport)
    requires toolAliasName != "" && cfg.retries >= 0 && (cfg.retries > 0 ==> cfg.backoffSeconds >= 0.0)
    requires forall j :: 0 <= j <= cfg.retries ==>
               RetryableFailure(Step(BuildRequest(cfg, toolAliasName, parameters), transport, j))
    ensures Execute(cfg, toolAliasName, parameters, transport)
              == Run(Step(BuildRequest(cfg, toolAliasName, parameters), transport, cfg.retries), cfg.retries + 1,
                     Backoffs(cfg.backoffSeconds, cfg.retries))
  {
    var request := BuildRequest(cfg, toolAliasName, parameters);
    if cfg.retries == 0 {
      assert Backoffs(cfg.backoffSeconds, 0) == [];
    } else {
      var candidate := Run(Step(request, transport, cfg.retries), cfg.retries + 1, Backoffs(cfg.backoffSeconds, cfg.retries));
      assert Conforms(cfg, request, transport, candidate);
      ExecuteIffConforms(cfg, toolAliasName, parameters, transport, candidate);
    }
  }

  /** A 401 or 403 on the first attempt raises `DatagenAuthError` after that
      one request, whatever the retry budget. */
  lemma AuthErrorNotRetried(cfg: Settings, toolAliasName: string, parameters: Option<map<string, Json>>,
                            transport: Transport)
    requires toolAliasName != "" && cfg.retries >= 0
    requires var a := transport(BuildRequest(cfg, toolAliasName, parameters), 0);
               a.Response? && (a.status == 401 || a.status == 403)
    ensures var r := Execute(cfg, toolAliasName, parameters, transport);
      r.attempts == 1 && r.delays == [] && r.outcome.Raised? && r.outcome.error.DatagenAuthError?
  {
  }

  /** A tool failure on the first attempt raises `DatagenToolError` after that
      one request, whatever the retry budget. */
  lemma ToolErrorNotRetried(cfg: Settings, toolAliasName: string, parameters: Option<map<string, Json>>,
                            transport: Transport)
    requires toolAliasName != "" && cfg.retries >= 0
    requires Step(BuildRequest(cfg, toolAliasName, parameters), transport, 0).Raised?
    requires Step(BuildRequest(cfg, toolAliasName, parameters), transport, 0).error.DatagenToolError?
    ensures var r := Execute(cfg, toolAliasName, parameters, transport);
      r.attempts == 1 && r.delays == [] && r.outcome.Raised? && r.outcome.error.DatagenToolError?
  {
  }

  /** A negative backoff makes `time.sleep` raise `ValueError` at the first
      retry, so no call sends more than one request. */
  lemma NegativeBackoffStopsAtFirstRetry(cfg: Settings, toolAliasName: string,
                                         parameters: Option<map<string, Json>>, transport: Transport)
    requires toolAliasName != "" && cfg.retries > 0 && cfg.backoffSeconds < 0.0
    requires RetryableFailure(Step(BuildRequest(cfg, toolAliasName, parameters), transport, 0))
    ensures Execute(cfg, toolAliasName, parameters, transport) == Run(Raised(ValueError(NegativeSleepMessage)), 1, [])
  {
    DelaySign(cfg.backoffSeconds, 0);
  }

  // ------------------------------------------------------- concrete scenarios

  /** The response a mock server gives for a successful tool call. */
  function SuccessResponse(result: Json): Attempt {
    Response(200, "",
      Decoded(Object(map["success" := Bool(true), "data" := Object(map["success" := Bool(true), "result" := result])])))
  }

  /** The result the mock server of the retry test returns: `{"status": "ok"}`. */
  const OkResult := Object(map["status" := Str("ok")])

  /** A mock server answering 500 "Server Error" `failures` times, then with
      `OkResult`. */
  function FlakyServer(failures: nat): Transport {
    (request: Request, k: nat) =>
      if k < failures then ServerError() else SuccessResponse(OkResult)
  }

  function ServerError(): Attempt {
    Response(500, "Server Error", Undecodable("Expecting value"))
  }

  /** Two 500s then a success, with `retries=2` and `backoff_seconds=0.01`:
      three requests, sleeps of 0.01 and 0.02, and the inner result returned. */
  lemma TwoFailuresThenSuccess(apiKey: string, baseUrl: string)
    ensures Execute(Settings(apiKey, baseUrl, DefaultTimeout, 2, 0.01), "test_tool", None, FlakyServer(2))
              == Run(Returned(OkResult), 3, [0.01, 0.02])
  {
    var cfg := Settings(apiKey, baseUrl, DefaultTimeout, 2, 0.01);
    var request := BuildRequest(cfg, "test_tool", None);
    forall j | 0 <= j < 2 ensures RetryableFailure(Step(request, FlakyServer(2), j)) {
      assert FlakyServer(2)(request, j) == ServerError();
      ClassifyStatus(ServerError());
    }
    var envelope := map["success" := Bool(true), "result" := OkResult];
    assert Get(envelope, "success", Bool(false)) == Bool(true);
    assert FlakyServer(2)(request, 2) == SuccessResponse(OkResult);
    assert Step(request, FlakyServer(2), 2) == Returned(OkResult);
    StopsAtFirstNonRetryable(cfg, "test_tool", None, FlakyServer(2), 2);
    assert Backoffs(0.01, 2) == [0.01, 0.02];
  }

  /** Four 500s with `retries=3`: four requests, and the last `HTTP 500` is
      raised as `DatagenHttpError`. */
  lemma RetriesExhausted(apiKey: string, baseUrl: string, backoffSeconds: real)
    requires backoffSeconds >= 0.0
    ensures var r := Execute(Settings(apiKey, baseUrl, DefaultTimeout, 3, backoffSeconds), "test_tool", None,
                             FlakyServer(4));
            && r.outcome == Raised(DatagenHttpError(Status(500, "Server Error")))
            && r.attempts == 4
  {
    var cfg := Settings(apiKey, baseUrl, DefaultTimeout, 3, backoffSeconds);
    var request := BuildRequest(cfg, "test_tool", None);
    forall j | 0 <= j <= 3 ensures RetryableFailure(Step(request, FlakyServer(4), j)) {
      assert FlakyServer(4)(request, j) == ServerError();
      ClassifyStatus(ServerError());
    }
    ExhaustedRaisesLast(cfg, "test_tool", None, FlakyServer(4));
    assert FlakyServer(4)(request, 3) == ServerError();
    ClassifyStatus(ServerError());
  }
}
