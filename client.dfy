/** The client of eaglebirth/client.py: API-key validation and base-URL
    resolution when a client is built, and `_make_request`'s preparation of
    the HTTP call and classification of what comes back. The HTTP call itself
    is a function parameter from the prepared call to its outcome. */
module Client {

  import opened Common
  import opened Responses
  import opened Payload

  const ProductionUrl: string := "https://eaglebirth.com/api"
  const SandboxUrl: string := "https://sandbox.eaglebirth.com/api"

  const TestPrefix: string := "eb_test_"
  const LivePrefix: string := "eb_live_"

  const KeyRequired: string := "API key is required"
  const BadKeyFormat: string := "Invalid API key format. Must start with 'eb_test_' or 'eb_live_'"
  const RateLimited: string := "Rate limit exceeded. Please slow down your requests."
  const Unauthorized: string := "Invalid API key or unauthorized access"
  const UnknownError: string := "Unknown error"
  const TimedOut: string := "Request timed out"
  const ConnectionFailed: string := "Connection error. Please check your network."

  // ---------------------------------------------------------------------
  // Configuration
  // ---------------------------------------------------------------------

  /** Python's `s.startswith(prefix)`. */
  predicate StartsWith(s: string, prefix: string)
  {
    |prefix| <= |s| && s[..|prefix|] == prefix
  }

  /** Python's `s.startswith(prefixes)` for a tuple of prefixes: true when
      some prefix of the tuple starts `s`. */
  function StartsWithAny(s: string, prefixes: seq<string>): (b: bool)
    ensures b <==> exists i :: 0 <= i < |prefixes| && StartsWith(s, prefixes[i])
    decreases |prefixes|
  {
    if prefixes == [] then false
    else StartsWith(s, prefixes[0]) || StartsWithAny(s, prefixes[1..])
  }

  /** No key is both a test key and a live key. */
  lemma PrefixesExclusive(apiKey: string)
    ensures !(StartsWith(apiKey, TestPrefix) && StartsWith(apiKey, LivePrefix))
  {
  }

  /** A key `__init__` accepts. */
  predicate Accepted(apiKey: string)
  {
    StartsWith(apiKey, TestPrefix) || StartsWith(apiKey, LivePrefix)
  }

  /** The test `api_key.startswith(('eb_test_', 'eb_live_'))` is acceptance. */
  lemma StartsWithEitherPrefix(apiKey: string)
    ensures StartsWithAny(apiKey, [TestPrefix, LivePrefix]) <==> Accepted(apiKey)
  {
    var prefixes := [TestPrefix, LivePrefix];
    assert prefixes[0] == TestPrefix && prefixes[1] == LivePrefix;
  }

  /** What a client holds once it is built. */
  datatype Config = Config(apiKey: string, baseUrl: string, timeout: int)

  /** `__init__` as a function of its arguments: the empty key is refused
      first, then a key with neither prefix; an accepted key keeps a truthy
      base-URL override verbatim, and otherwise selects the sandbox for a
      test key and production for a live key. */
  function Configure(apiKey: string, baseUrl: Option<string>, timeout: int): (r: Result<Config, ConfigError>)
    ensures apiKey == "" ==> r == Failure(ValueError(KeyRequired))
    ensures apiKey != "" && !Accepted(apiKey) ==> r == Failure(ValueError(BadKeyFormat))
    ensures r.Success? <==> Accepted(apiKey)
    ensures r.Success? ==> r.value.apiKey == apiKey && r.value.timeout == timeout
    ensures r.Success? && Truthy(baseUrl) ==> r.value.baseUrl == baseUrl.value
    ensures r.Success? && !Truthy(baseUrl) && StartsWith(apiKey, TestPrefix) ==> r.value.baseUrl == SandboxUrl
    ensures r.Success? && !Truthy(baseUrl) && StartsWith(apiKey, LivePrefix) ==> r.value.baseUrl == ProductionUrl
  {
    PrefixesExclusive(apiKey);
    StartsWithEitherPrefix(apiKey);
    if apiKey == "" then
      Failure(ValueError(KeyRequired))
    else if !StartsWithAny(apiKey, [TestPrefix, LivePrefix]) then
      Failure(ValueError(BadKeyFormat))
    else
      var url := if Truthy(baseUrl) then baseUrl.value
                 else if StartsWith(apiKey, TestPrefix) then SandboxUrl
                 else ProductionUrl;
      Success(Config(apiKey, url, timeout))
  }

  /** The base URL only depends on the override when one is given, and only
      on the key's environment otherwise. */
  lemma OverrideWins(testKey: string, liveKey: string, url: string, timeout: int)
    requires StartsWith(testKey, TestPrefix) && StartsWith(liveKey, LivePrefix) && url != ""
    ensures Configure(testKey, Some(url), timeout).Success?
    ensures Configure(testKey, Some(url), timeout).value.baseUrl
         == Configure(liveKey, Some(url), timeout).value.baseUrl
    ensures Configure(testKey, Some(""), timeout) == Configure(testKey, None, timeout)
    ensures Configure(testKey, None, timeout).value.baseUrl != Configure(liveKey, None, timeout).value.baseUrl
  {
    assert SandboxUrl[8] != ProductionUrl[8];
  }

  // ---------------------------------------------------------------------
  // The HTTP call and its outcome
  // ---------------------------------------------------------------------

  /** The arguments of the `requests.request(...)` call. */
  datatype Prepared = Prepared(
    verb: string,
    url: string,
    headers: map<string, string>,
    data: Data,
    files: Option<Files>,
    params: Option<Data>,
    timeout: int)

  /** The three `requests` exceptions the client catches, most specific first;
      `description` is `str(e)` of any other `RequestException`. */
  datatype TransportFailure = Timeout | ConnectionFailure | OtherFailure(description: string)

  /** What the HTTP call ends in: an exception, or a response whose body
      either parses as a JSON object or does not parse at all. */
  datatype Outcome = Raised(failure: TransportFailure) | Answered(status: int, body: Body)

  /** `response.ok` of `requests`: false exactly for 4xx and 5xx statuses. */
  predicate IsOk(status: int)
  {
    !(400 <= status < 600)
  }

  /** The vendor's in-band error marker, `res == 'failed'`. */
  predicate ReportsFailure(obj: Obj)
  {
    "res" in obj && obj["res"] == JStr("failed")
  }

  /** `response_data.get('message', 'Unknown error')`. */
  function FailureReason(obj: Obj): Json
  {
    if "message" in obj then obj["message"] else JStr(UnknownError)
  }

  /** The message of the `APIError` raised for a transport exception. */
  function TransportReason(failure: TransportFailure): string
  {
    match failure
    case Timeout => TimedOut
    case ConnectionFailure => ConnectionFailed
    case OtherFailure(description) => "Request failed: " + description
  }

  /** The classification `_make_request` applies to the outcome, in the
      source's order: 429, then 401, then an unparseable body (an error only
      when the status is not ok), then the in-band failure marker; anything
      else is returned as it came. */
  function Classify(outcome: Outcome): (r: Result<Obj, EagleBirthError>)
    ensures r.Failure? ==> !r.error.ValidationError?
    ensures (r.Failure? && r.error.RateLimitError?) <==> outcome.Answered? && outcome.status == 429
    ensures (r.Failure? && r.error.AuthenticationError?) <==> outcome.Answered? && outcome.status == 401
    ensures r.Failure? && r.error.RateLimitError? ==> r.error.message == RateLimited
    ensures r.Failure? && r.error.AuthenticationError? ==> r.error.message == Unauthorized
    ensures outcome.Raised? ==> r == Failure(ApiError(JStr(TransportReason(outcome.failure)), None, None))
    ensures r.Success? <==>
              && outcome.Answered?
              && outcome.status != 429 && outcome.status != 401
              && (outcome.body.Unparsed? ==> IsOk(outcome.status))
              && (outcome.body.Parsed? ==> !ReportsFailure(outcome.body.obj))
    ensures r.Success? && outcome.body.Parsed? ==> r.value == outcome.body.obj
    ensures r.Success? && outcome.body.Unparsed? ==> r.value == map["data" := JStr(outcome.body.text)]
    ensures r.Failure? && r.error.ApiError? && outcome.Answered? ==>
              && r.error.statusCode == Some(outcome.status)
              && r.error.response == Some(outcome.body)
              && r.error.reason == (if outcome.body.Parsed? then FailureReason(outcome.body.obj)
                                    else JStr("API request failed: " + outcome.body.text))
  {
    match outcome
    case Raised(failure) =>
      Failure(ApiError(JStr(TransportReason(failure)), None, None))
    case Answered(status, body) =>
      if status == 429 then
        Failure(RateLimitError(RateLimited))
      else if status == 401 then
        Failure(AuthenticationError(Unauthorized))
      else
        match body
        case Unparsed(text) =>
          if !IsOk(status) then
            Failure(ApiError(JStr("API request failed: " + text), Some(status), Some(body)))
          else
            Success(map["data" := JStr(text)])
        case Parsed(obj) =>
          if ReportsFailure(obj) then
            Failure(ApiError(FailureReason(obj), Some(status), Some(body)))
          else
            Success(obj)
  }

  /** An `APIError` carries a status code exactly when a response was
      received, and then carries that response too. */
  lemma StatusCodeMeansResponse(outcome: Outcome)
    requires Classify(outcome).Failure? && Classify(outcome).error.ApiError?
    ensures Classify(outcome).error.statusCode.Some? <==> outcome.Answered?
    ensures Classify(outcome).error.statusCode.Some? <==> Classify(outcome).error.response.Some?
  {
  }

  /** 429 and 401 are decided before the body is looked at. */
  lemma StatusBeforeBody(status: int, body1: Body, body2: Body)
    requires status == 429 || status == 401
    ensures Classify(Answered(status, body1)) == Classify(Answered(status, body2))
  {
  }

  // ---------------------------------------------------------------------
  // The client object
  // ---------------------------------------------------------------------

  /** An `EagleBirth` client. Its three settings are assigned once, by the
      constructor, and never change. */
  class EagleBirth {
    const apiKey: string
    const baseUrl: string
    const timeout: int

    /** The settings only an accepted configuration produces. */
    ghost predicate Valid()
    {
      Accepted(apiKey) && baseUrl != ""
    }

    /** The settings as a value. */
    function Settings(): Config
    {
      Config(apiKey, baseUrl, timeout)
    }

    /** Stores settings `New` has already checked: an accepted key and a
        non-empty base URL. */
    constructor (config: Config)
      requires Accepted(config.apiKey) && config.baseUrl != ""
      ensures Valid() && Settings() == config
    {
      apiKey := config.apiKey;
      baseUrl := config.baseUrl;
      timeout := config.timeout;
    }

    /** `EagleBirth(api_key, base_url=None, timeout=30)`: the `ValueError`
        `__init__` raises is a `Failure`; otherwise the new client holds the
        configuration `Configure` describes. */
    static method New(apiKey: string, baseUrl: Option<string> := None, timeout: int := 30)
      returns (r: Result<EagleBirth, ConfigError>)
      ensures r.Failure? <==> Configure(apiKey, baseUrl, timeout).Failure?
      ensures r.Failure? ==> r.error == Configure(apiKey, baseUrl, timeout).error
      ensures r.Success? ==> fresh(r.value) && r.value.Valid()
                             && r.value.Settings() == Configure(apiKey, baseUrl, timeout).value
    {
      if apiKey == "" {
        return Failure(ValueError(KeyRequired));
      }
      StartsWithEitherPrefix(apiKey);
      if !StartsWithAny(apiKey, [TestPrefix, LivePrefix]) {
        return Failure(ValueError(BadKeyFormat));
      }
      var url: string;
      if Truthy(baseUrl) {
        url := baseUrl.value;
      } else if StartsWith(apiKey, TestPrefix) {
        url := SandboxUrl;
      } else {
        url := ProductionUrl;
      }
      var client := new EagleBirth(Config(apiKey, url, timeout));
      r := Success(client);
    }

    /** The call `_make_request` hands to `requests`: the URL is the base
        URL followed by the endpoint, the only header is the bearer
        authorization with this client's key, and the payload and timeout
        pass through unchanged. Only a client `__init__` accepted can make
        it, so the bearer key always has a recognized prefix and the URL a
        non-empty base. */
    function Prepare(req: Request): (p: Prepared)
      requires Valid()
      ensures |p.url| == |baseUrl| + |req.endpoint|
      ensures p.url[..|baseUrl|] == baseUrl && p.url[|baseUrl|..] == req.endpoint
      ensures p.headers.Keys == {"Authorization"}
      ensures |p.headers["Authorization"]| == 7 + |apiKey|
      ensures p.headers["Authorization"][..7] == "Bearer " && p.headers["Authorization"][7..] == apiKey
      ensures p.verb == req.verb && p.data == req.data && p.files == req.files && p.params == req.params
      ensures p.timeout == timeout
      ensures Accepted(p.headers["Authorization"][7..]) && p.url[..|baseUrl|] != ""
    {
      Prepared(req.verb, baseUrl + req.endpoint, map["Authorization" := "Bearer " + apiKey],
               req.data, req.files, req.params, timeout)
    }

    /** `_make_request`: prepare the call, let the transport run it, and
        classify what it ends in. */
    method MakeRequest(req: Request, transport: Prepared -> Outcome)
      returns (r: Result<Obj, EagleBirthError>)
      requires Valid()
      ensures r == Classify(transport(Prepare(req)))
    {
      var headers := map["Authorization" := "Bearer " + apiKey];
      var outcome := transport(Prepared(req.verb, baseUrl + req.endpoint, headers,
                                        req.data, req.files, req.params, timeout));
      r := Classify(outcome);
    }
  }
}
