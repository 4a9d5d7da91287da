/**
 * The REST tool base class (`BaseRESTTool` in `tools/base_rest_tool.py`): settings read
 * from the tool's configuration, request and response middleware applied in
 * registration order, the request headers, and `make_request`'s retry loop with its
 * table of status codes.
 *
 * The environment (`os.getenv`), the token manager's answer and the network are
 * parameters: the network is a function from the request and the attempt number to what
 * that attempt observed. Rate limiting and the back-off sleeps are timing and are not
 * modelled.
 */
module BaseRestTool {
  import opened Wrappers
  import opened JsonValue
  import opened PyStr

  /** The configuration entries the constructor reads, `None` for an absent one. */
  datatype RestConfig = RestConfig(
    endpointUrl: Option<string>,
    tokenUrl: Option<string>,
    apiKeyEnv: Option<string>,
    clientSecretEnv: Option<string>,
    strict: Option<bool>,
    contentType: Option<string>,
    defaultTimeout: Option<int>,
    maxRetries: Option<int>)

  /** What a constructed tool keeps. */
  datatype Settings = Settings(
    endpoint: string,
    apiKeyEnv: Option<string>,
    strict: bool,
    contentType: string,
    defaultTimeout: int,
    maxRetries: int,
    hasTokenManager: bool,
    parameters: Json)

  /** A string setting used as a condition: present and non-empty. */
  predicate Set(s: Option<string>)
  {
    s.Some? && s.value != ""
  }

  /** The parameters schema a tool without parameters gets. */
  const DefaultParameters: Json :=
    JObj([("type", JStr("object")), ("properties", JObj([])), ("required", JArr([])),
          ("additionalProperties", JBool(false))])

  /** `BaseRESTTool.__init__(config)`, given the environment and the parameters the object
      has when the constructor checks them. */
  function Configure(config: RestConfig, env: string -> Option<string>, parameters: Json): Result<Settings>
  {
    if !Set(config.endpointUrl) then Failure("The 'endpoint_url' is required in the configuration.")
    else
      var apiKey := if Set(config.apiKeyEnv) then env(config.apiKeyEnv.value) else None;
      var clientSecret := if Set(config.clientSecretEnv) then env(config.clientSecretEnv.value) else None;
      Success(Settings(
        config.endpointUrl.value,
        config.apiKeyEnv,
        config.strict.GetOr(false),
        config.contentType.GetOr("application/json"),
        config.defaultTimeout.GetOr(30),
        config.maxRetries.GetOr(3),
        Set(config.tokenUrl) && Set(apiKey) && Set(clientSecret),
        if IsTruthy(parameters) then parameters else DefaultParameters))
  }

  // ----- middleware -----

  /** Middleware applied in order, each one's output feeding the next. */
  function Apply<A>(middleware: seq<A -> A>, x: A): A
    decreases |middleware|
  {
    if middleware == [] then x else Apply(middleware[1..], middleware[0](x))
  }

  // ----- headers -----

  /** An environment variable as a header value: `None` when it is unset. */
  function EnvValue(v: Option<string>): Json
  {
    if v.Some? then JStr(v.value) else JNull
  }

  /** `d.update(other)`. */
  function Update(d: seq<(string, Json)>, other: seq<(string, Json)>): seq<(string, Json)>
    decreases |other|
  {
    if other == [] then d else Update(Put(d, other[0].0, other[0].1), other[1..])
  }

  /** The headers of a request; `token` is the access token when one is sent. */
  function Headers(s: Settings, env: string -> Option<string>, additional: seq<(string, Json)>, token: Option<string>): seq<(string, Json)>
  {
    var base := [("Content-Type", JStr(s.contentType)), ("Cache-Control", JStr("no-cache"))];
    var withKey := if Set(s.apiKeyEnv) then Put(base, "apikey", EnvValue(env(s.apiKeyEnv.value))) else base;
    var updated := Update(withKey, additional);
    if token.Some? then Put(updated, "Authorization", JStr("Bearer " + token.value)) else updated
  }

  // ----- responses and retries -----

  /** What a call returns: decoded JSON, text, or bytes. */
  datatype Payload = JsonPayload(value: Json) | TextPayload(text: string) | BinaryPayload(bytes: seq<bv8>)

  function ErrorDict(message: string): Payload
  {
    JsonPayload(JObj([("error", JStr(message))]))
  }

  /** A response: its status, its body as text and as bytes, and its body decoded as JSON
      (`None` when decoding fails). */
  datatype Response = Response(status: int, text: string, bytes: seq<bv8>, json: Option<Json>)

  /** What one attempt observed: a response, an `aiohttp.ClientError`, or another exception. */
  datatype Attempt = Answered(response: Response) | ClientError(message: string) | Failed(message: string)

  /** The request a call sends, before the request middleware. */
  datatype Request = Request(
    httpMethod: string,
    params: Json,
    data: Json,
    useToken: bool,
    endpointUrl: Option<string>,
    additionalHeaders: seq<(string, Json)>,
    responseFormat: string,
    timeout: Option<int>)

  type Network = (Json, nat) -> Attempt

  datatype Step = Retry | Return(result: Payload)

  /** The body of one iteration of the retry loop. */
  function AttemptStep(attempt: nat, maxRetries: int, format: string, a: Attempt, responseMiddleware: seq<Payload -> Payload>): Step
  {
    match a
    case Answered(r) =>
      if r.status == 200 then
        if format == "json" then
          if r.json.None? then Return(ErrorDict("Invalid JSON response from server"))
          else Return(Apply(responseMiddleware, JsonPayload(r.json.value)))
        else if format == "text" then Return(Apply(responseMiddleware, TextPayload(r.text)))
        else if format == "binary" then Return(Apply(responseMiddleware, BinaryPayload(r.bytes)))
        else Return(ErrorDict("Unexpected error: Unsupported response format: " + format))
      else if r.status == 400 then Return(ErrorDict("Bad Request: " + r.text))
      else if r.status == 401 then Return(ErrorDict("Unauthorized access - check API key or token."))
      else if r.status == 403 then Return(ErrorDict("Forbidden - insufficient permissions."))
      else if r.status == 404 then Return(ErrorDict("Resource not found - verify endpoint URL."))
      else if r.status >= 500 then
        if attempt < maxRetries - 1 then Retry else Return(ErrorDict("Server error - the API is currently unavailable."))
      else Return(ErrorDict("Unexpected status code " + IntText(r.status) + ": " + r.text))
    case ClientError(m) =>
      if attempt < maxRetries - 1 then Retry else Return(ErrorDict("Network error: " + m))
    case Failed(m) => Return(ErrorDict("Unexpected error: " + m))
  }

  /** `for attempt in range(max_retries)` from `attempt` on: `None` when the loop runs out. */
  function Retries(attempt: nat, maxRetries: int, format: string, request: Json, network: Network,
                   responseMiddleware: seq<Payload -> Payload>): Option<Payload>
    decreases maxRetries - attempt
  {
    if attempt >= maxRetries then None
    else
      match AttemptStep(attempt, maxRetries, format, network(request, attempt), responseMiddleware)
      case Retry => Retries(attempt + 1, maxRetries, format, request, network, responseMiddleware)
      case Return(p) => Some(p)
  }

  /** One unfolding of the retry loop, given the outcome of its first attempt. */
  lemma {:induction false} RetriesStep(attempt: nat, maxRetries: int, format: string, request: Json, network: Network,
                    responseMiddleware: seq<Payload -> Payload>, step: Step)
    requires attempt < maxRetries
    requires step == AttemptStep(attempt, maxRetries, format, network(request, attempt), responseMiddleware)
    ensures step.Retry? ==>
      Retries(attempt, maxRetries, format, request, network, responseMiddleware) ==
      Retries(attempt + 1, maxRetries, format, request, network, responseMiddleware)
    ensures step.Return? ==> Retries(attempt, maxRetries, format, request, network, responseMiddleware) == Some(step.result)
  {
  }

  /** The request dict handed to the middleware and then to the session. */
  function RequestData(httpMethod: string, url: string, headers: seq<(string, Json)>, params: Json, data: Json, timeout: int): Json
  {
    JObj([("method", JStr(httpMethod)), ("url", JStr(url)), ("headers", JObj(headers)),
          ("params", params), ("data", data), ("timeout", JNum(timeout))])
  }

  /** `make_request`: the access token's failure propagates; otherwise the outcome of the
      retry loop. `token` is what `get_access_token` gives when it is called. */
  function MakeRequestSpec(
    s: Settings, requestMiddleware: seq<Json -> Json>, responseMiddleware: seq<Payload -> Payload>,
    req: Request, env: string -> Option<string>, token: Result<string>, network: Network): Result<Option<Payload>>
  {
    var needsToken := req.useToken && s.hasTokenManager;
    if needsToken && token.Failure? then Failure(token.error)
    else
      var url := if Set(req.endpointUrl) then req.endpointUrl.value else s.endpoint;
      var timeout := if req.timeout.Some? && req.timeout.value != 0 then req.timeout.value else s.defaultTimeout;
      var headers := Headers(s, env, req.additionalHeaders, if needsToken then Some(token.value) else None);
      var request := Apply(requestMiddleware, RequestData(req.httpMethod, url, headers, req.params, req.data, timeout));
      Success(Retries(0, s.maxRetries, req.responseFormat, request, network, responseMiddleware))
  }

  /** What `parse_output` receives for `make_request`'s result: `None` when the retry loop
      ran out, the decoded JSON, or the text. */
  function AsOutput(p: Option<Payload>): Json
  {
    if p.None? then JNull
    else
      match p.value
      case JsonPayload(v) => v
      case TextPayload(t) => JStr(t)
      case BinaryPayload(_) => JStr("")
  }

  class RestTool {
    const settings: Settings
    var requestMiddleware: seq<Json -> Json>
    var responseMiddleware: seq<Payload -> Payload>

    /** The object `__init__` leaves once `Configure` has succeeded. */
    constructor(s: Settings)
      ensures settings == s && requestMiddleware == [] && responseMiddleware == []
    {
      settings := s;
      requestMiddleware, responseMiddleware := [], [];
    }

    method AddRequestMiddleware(m: Json -> Json)
      modifies this
      ensures requestMiddleware == old(requestMiddleware) + [m]
      ensures responseMiddleware == old(responseMiddleware)
    {
      requestMiddleware := requestMiddleware + [m];
    }

    method AddResponseMiddleware(m: Payload -> Payload)
      modifies this
      ensures responseMiddleware == old(responseMiddleware) + [m]
      ensures requestMiddleware == old(requestMiddleware)
    {
      responseMiddleware := responseMiddleware + [m];
    }

    method ApplyRequestMiddleware(data: Json) returns (r: Json)
      ensures r == Apply(requestMiddleware, data)
    {
      r := data;
      var i := 0;
      while i < |requestMiddleware|
        invariant 0 <= i <= |requestMiddleware|
        invariant Apply(requestMiddleware, data) == Apply(requestMiddleware[i..], r)
      {
        assert requestMiddleware[i..][1..] == requestMiddleware[i + 1..];
        r := requestMiddleware[i](r);
        i := i + 1;
      }
    }

    method ApplyResponseMiddleware(data: Payload) returns (r: Payload)
      ensures r == Apply(responseMiddleware, data)
    {
      r := data;
      var i := 0;
      while i < |responseMiddleware|
        invariant 0 <= i <= |responseMiddleware|
        invariant Apply(responseMiddleware, data) == Apply(responseMiddleware[i..], r)
      {
        assert responseMiddleware[i..][1..] == responseMiddleware[i + 1..];
        r := responseMiddleware[i](r);
        i := i + 1;
      }
    }

    /** One iteration of the retry loop: return a result, or go on to the next attempt. */
    method HandleAttempt(attempt: nat, format: string, a: Attempt) returns (step: Step)
      ensures step == AttemptStep(attempt, settings.maxRetries, format, a, responseMiddleware)
    {
      match a
      case Answered(r) =>
        if r.status == 200 {
          var raw: Payload;
          if format == "json" {
            if r.json.None? {
              return Return(ErrorDict("Invalid JSON response from server"));
            }
            raw := JsonPayload(r.json.value);
          } else if format == "text" {
            raw := TextPayload(r.text);
          } else if format == "binary" {
            raw := BinaryPayload(r.bytes);
          } else {
            return Return(ErrorDict("Unexpected error: Unsupported response format: " + format));
          }
          var result := ApplyResponseMiddleware(raw);
          return Return(result);
        }
        if r.status == 400 {
          step := Return(ErrorDict("Bad Request: " + r.text));
        } else if r.status == 401 {
          step := Return(ErrorDict("Unauthorized access - check API key or token."));
        } else if r.status == 403 {
          step := Return(ErrorDict("Forbidden - insufficient permissions."));
        } else if r.status == 404 {
          step := Return(ErrorDict("Resource not found - verify endpoint URL."));
        } else if r.status >= 500 {
          step := if attempt < settings.maxRetries - 1 then Retry
            else Return(ErrorDict("Server error - the API is currently unavailable."));
        } else {
          step := Return(ErrorDict("Unexpected status code " + IntText(r.status) + ": " + r.text));
        }
      case ClientError(m) =>
        step := if attempt < settings.maxRetries - 1 then Retry else Return(ErrorDict("Network error: " + m));
      case Failed(m) =>
        step := Return(ErrorDict("Unexpected error: " + m));
    }

    method MakeRequest(req: Request, env: string -> Option<string>, token: Result<string>, network: Network)
      returns (outcome: Result<Option<Payload>>)
      ensures outcome == MakeRequestSpec(settings, requestMiddleware, responseMiddleware, req, env, token, network)
    {
      var url := if Set(req.endpointUrl) then req.endpointUrl.value else settings.endpoint;
      var timeout := if req.timeout.Some? && req.timeout.value != 0 then req.timeout.value else settings.defaultTimeout;
      var auth: Option<string> := None;
      if req.useToken && settings.hasTokenManager {
        if token.Failure? {
          return Failure(token.error);
        }
        auth := Some(token.value);
      }
      var headers := Headers(settings, env, req.additionalHeaders, auth);
      var request := ApplyRequestMiddleware(RequestData(req.httpMethod, url, headers, req.params, req.data, timeout));
      var result := RetryLoop(req.responseFormat, request, network);
      return Success(result);
    }

    /** The retry loop of `make_request`: the first attempt that returns decides the
        result; `None` when every attempt asked for a retry. */
    method RetryLoop(format: string, request: Json, network: Network) returns (result: Option<Payload>)
      ensures result == Retries(0, settings.maxRetries, format, request, network, responseMiddleware)
    {
      var attempt := 0;
      while attempt < settings.maxRetries
        invariant 0 <= attempt
        invariant Retries(0, settings.maxRetries, format, request, network, responseMiddleware) ==
          Retries(attempt, settings.maxRetries, format, request, network, responseMiddleware)
        decreases settings.maxRetries - attempt
      {
        var step := HandleAttempt(attempt, format, network(request, attempt));
        RetriesStep(attempt, settings.maxRetries, format, request, network, responseMiddleware, step);
        if step.Return? {
          return Some(step.result);
        }
        attempt := attempt + 1;
      }
      return None;
    }
  }

  // ----- properties -----

  /** Construction fails exactly when the endpoint is missing or empty. */
  lemma {:induction false} ConfigureFails(config: RestConfig, env: string -> Option<string>, parameters: Json)
    ensures Configure(config, env, parameters).Failure? <==> !Set(config.endpointUrl)
    ensures Configure(config, env, parameters).Failure? ==>
      Configure(config, env, parameters).error == "The 'endpoint_url' is required in the configuration."
  {
  }

  /** A constructed tool always has a non-empty parameters schema: its own, or the default
      object schema when it had none; reconfiguring with that schema keeps it. */
  lemma {:induction false} ConfigureParameters(config: RestConfig, env: string -> Option<string>, parameters: Json)
    requires Configure(config, env, parameters).Success?
    ensures var p := Configure(config, env, parameters).value.parameters;
      IsTruthy(p) &&
      (IsTruthy(parameters) ==> p == parameters) &&
      (!IsTruthy(parameters) ==> p == DefaultParameters) &&
      Configure(config, env, p) == Configure(config, env, parameters)
  {
  }

  /** A token manager exists exactly when the token URL is set and both environment
      variables named in the configuration hold non-empty values. */
  lemma {:induction false} TokenManagerPresence(config: RestConfig, env: string -> Option<string>, parameters: Json)
    requires Configure(config, env, parameters).Success?
    ensures Configure(config, env, parameters).value.hasTokenManager <==>
      Set(config.tokenUrl) &&
      Set(config.apiKeyEnv) && Set(env(config.apiKeyEnv.value)) &&
      Set(config.clientSecretEnv) && Set(env(config.clientSecretEnv.value))
  {
  }

  /** A middleware added last runs last, on the output of all the earlier ones. */
  lemma {:induction false} ApplySnoc<A>(middleware: seq<A -> A>, m: A -> A, x: A)
    ensures Apply(middleware + [m], x) == m(Apply(middleware, x))
    decreases |middleware|
  {
    if middleware != [] {
      assert (middleware + [m])[1..] == middleware[1..] + [m];
      ApplySnoc(middleware[1..], m, middleware[0](x));
    }
  }

  /** Two lists of middleware in a row are the first applied, then the second. */
  lemma {:induction false} ApplyConcat<A>(first: seq<A -> A>, second: seq<A -> A>, x: A)
    ensures Apply(first + second, x) == Apply(second, Apply(first, x))
    decreases |first|
  {
    if first != [] {
      assert (first + second)[1..] == first[1..] + second;
      ApplyConcat(first[1..], second, first[0](x));
    } else {
      assert first + second == second;
    }
  }

  /** After `d.update(other)` a key of `other` reads as there, every other key as in `d`. */
  lemma {:induction false} GetUpdate(d: seq<(string, Json)>, other: seq<(string, Json)>, k: string)
    requires UniqueKeys(other)
    ensures Get(Update(d, other), k) == if k in Keys(other) then Get(other, k) else Get(d, k)
    decreases |other|
  {
    if other != [] {
      var rest := other[1..];
      UniqueTail(other);
      GetUpdate(Put(d, other[0].0, other[0].1), rest, k);
      GetPut(d, other[0].0, other[0].1, k);
    }
  }

  /** Past the first entry of a dict with unique keys the keys stay unique, and the first
      key is not among them. */
  lemma {:induction false} UniqueTail(other: seq<(string, Json)>)
    requires UniqueKeys(other) && other != []
    ensures UniqueKeys(other[1..]) && other[0].0 !in Keys(other[1..])
    ensures Keys(other) == [other[0].0] + Keys(other[1..])
  {
    var rest := other[1..];
    forall i, j | 0 <= i < j < |rest| ensures rest[i].0 != rest[j].0 {
      assert rest[i] == other[i + 1] && rest[j] == other[j + 1];
    }
  }

  /** Every header of a request: `Authorization` when a token is sent; otherwise a header
      given by the caller; otherwise `Content-Type`, `Cache-Control`, and `apikey` when
      the configuration names its environment variable; nothing else. */
  lemma {:induction false} HeadersContents(s: Settings, env: string -> Option<string>, additional: seq<(string, Json)>, token: Option<string>, k: string)
    requires UniqueKeys(additional)
    ensures Get(Headers(s, env, additional, token), k) ==
      if k == "Authorization" && token.Some? then Some(JStr("Bearer " + token.value))
      else if k in Keys(additional) then Get(additional, k)
      else if k == "Content-Type" then Some(JStr(s.contentType))
      else if k == "Cache-Control" then Some(JStr("no-cache"))
      else if k == "apikey" && Set(s.apiKeyEnv) then Some(EnvValue(env(s.apiKeyEnv.value)))
      else None
  {
    var base := [("Content-Type", JStr(s.contentType)), ("Cache-Control", JStr("no-cache"))];
    var withKey := if Set(s.apiKeyEnv) then Put(base, "apikey", EnvValue(env(s.apiKeyEnv.value))) else base;
    var updated := Update(withKey, additional);
    GetUpdate(withKey, additional, k);
    if Set(s.apiKeyEnv) {
      GetPut(base, "apikey", EnvValue(env(s.apiKeyEnv.value)), k);
    }
    if token.Some? {
      GetPut(updated, "Authorization", JStr("Bearer " + token.value), k);
    }
  }

  /** An attempt observation after which the loop tries again, unless it was the last one. */
  predicate Transient(a: Attempt)
  {
    a.ClientError? || (a.Answered? && a.response.status >= 500)
  }

  /** The retry loop makes no request at all when `max_retries` is not positive and
      otherwise always returns: the result is that of some attempt `n` below
      `max_retries`, and every attempt before it was a server error or a client error
      that was not the last attempt. */
  lemma {:induction false} RetriesOutcome(attempt: nat, maxRetries: int, format: string, request: Json, network: Network,
                                          responseMiddleware: seq<Payload -> Payload>)
    ensures Retries(attempt, maxRetries, format, request, network, responseMiddleware).None? <==> attempt >= maxRetries
    ensures var r := Retries(attempt, maxRetries, format, request, network, responseMiddleware);
      r.Some? ==> exists n: nat :: Witness(attempt, n, maxRetries, format, request, network, responseMiddleware, r.value)
    decreases maxRetries - attempt
  {
    if attempt < maxRetries {
      var a := network(request, attempt);
      var step := AttemptStep(attempt, maxRetries, format, a, responseMiddleware);
      var r := Retries(attempt, maxRetries, format, request, network, responseMiddleware);
      if step.Retry? {
        RetryIsTransient(attempt, maxRetries, format, a, responseMiddleware);
        RetriesOutcome(attempt + 1, maxRetries, format, request, network, responseMiddleware);
        assert r == Retries(attempt + 1, maxRetries, format, request, network, responseMiddleware);
        if r.Some? {
          var n: nat :| Witness(attempt + 1, n, maxRetries, format, request, network, responseMiddleware, r.value);
          assert Witness(attempt, n, maxRetries, format, request, network, responseMiddleware, r.value);
        }
      } else {
        assert r == Some(step.result);
        assert Witness(attempt, attempt, maxRetries, format, request, network, responseMiddleware, r.value);
      }
    }
  }

  /** Attempt `n` gives `result`, and every attempt from `attempt` up to it was retried. */
  predicate Witness(attempt: nat, n: nat, maxRetries: int, format: string, request: Json, network: Network,
                    responseMiddleware: seq<Payload -> Payload>, result: Payload)
  {
    attempt <= n < maxRetries &&
    AttemptStep(n, maxRetries, format, network(request, n), responseMiddleware) == Return(result) &&
    forall j :: attempt <= j < n ==> j < maxRetries - 1 && Transient(network(request, j))
  }

  /** An attempt is retried only when it is not the last and its observation is transient. */
  lemma {:induction false} RetryIsTransient(attempt: nat, maxRetries: int, format: string, a: Attempt, responseMiddleware: seq<Payload -> Payload>)
    ensures AttemptStep(attempt, maxRetries, format, a, responseMiddleware).Retry? ==> attempt < maxRetries - 1 && Transient(a)
  {
  }

  /** The last attempt never retries: a server error or client error on it comes back as
      the corresponding error dict. */
  lemma {:induction false} LastAttemptReturns(maxRetries: int, format: string, a: Attempt, responseMiddleware: seq<Payload -> Payload>)
    requires maxRetries >= 1
    ensures AttemptStep(maxRetries - 1, maxRetries, format, a, responseMiddleware).Return?
    ensures a.ClientError? ==>
      AttemptStep(maxRetries - 1, maxRetries, format, a, responseMiddleware) == Return(ErrorDict("Network error: " + a.message))
  {
  }

  /** A failing token manager is the only way `make_request` raises. */
  lemma {:induction false} MakeRequestRaises(
    s: Settings, requestMiddleware: seq<Json -> Json>, responseMiddleware: seq<Payload -> Payload>,
    req: Request, env: string -> Option<string>, token: Result<string>, network: Network)
    ensures MakeRequestSpec(s, requestMiddleware, responseMiddleware, req, env, token, network).Failure? <==>
      req.useToken && s.hasTokenManager && token.Failure?
  {
  }
}
