/** The API client of src/api.rs: connection parameters, the URL templates,
    and the four request shapes (REST, setting, stat and v2 fetches) with
    their envelope handling. An HTTP exchange is an input: `send` answers a
    request with a response, as the controller would at one moment. */
module Api {
  import opened Wrappers
  import opened Json

  /** Connection parameters; fixed once the client is built. */
  datatype Client = Client(baseUrl: string, apiKey: string)

  /** The failures the client reports (anyhow errors in the source). */
  datatype Error =
    | Transport(context: string)                     // the request never got a response
    | Status(context: string, status: int, body: string)  // a non-2xx response
    | Parse                                          // a 2xx response whose body is not JSON
    | NotFound(message: string)                      // a domain-level absence
    | NotConfigured(message: string)                 // host or API key missing from the config

  datatype Result<+T> = Ok(value: T) | Err(error: Error)

  datatype Verb = Get | Post | Put | Delete

  /** One HTTP request; `apiKey` is the value of its `X-API-Key` header. */
  datatype Request = Request(verb: Verb, url: string, apiKey: string, body: Option<Json>)

  /** What came back: nothing at all, or a status with the body as text and,
      when the body is JSON, as a parsed document. */
  datatype Response =
    | Unreachable
    | Response(status: int, text: string, parsed: Option<Json>)

  /** The controller, seen through the network. */
  type Transport = Request -> Response

  /** `StatusCode::is_success`: a 2xx status. */
  predicate IsSuccess(status: int) {
    200 <= status <= 299
  }

  predicate StartsWith(s: string, prefix: string) {
    |prefix| <= |s| && s[..|prefix|] == prefix
  }

  /** `Client::new`: a host without a leading "http" gets the https scheme. */
  function NewClient(host: string, apiKey: string): (c: Client)
    ensures StartsWith(c.baseUrl, "http")
    ensures StartsWith(host, "http") ==> c.baseUrl == host
    ensures !StartsWith(host, "http") ==> c.baseUrl == "https://" + host
    ensures c.apiKey == apiKey
  {
    var baseUrl := if StartsWith(host, "http") then host else "https://" + host;
    assert StartsWith(baseUrl, "http") by {
      if !StartsWith(host, "http") {
        assert baseUrl[..4] == "http";
      }
    }
    Client(baseUrl, apiKey)
  }

  /** Normalising an already normalised base URL changes nothing. */
  lemma NewClientIdempotent(host: string, apiKey: string)
    ensures var c := NewClient(host, apiKey); NewClient(c.baseUrl, apiKey) == c
  {
  }

  /** A host whose name merely begins with "http" is taken to carry a scheme. */
  lemma HttpPrefixedHostKeptAsIs()
    ensures NewClient("httpbin.lan", "k").baseUrl == "httpbin.lan"
  {
    assert StartsWith("httpbin.lan", "http") by {
      assert "httpbin.lan"[..4] == "http";
    }
  }

  const SitePath := "/proxy/network/api/s/default/"
  const V2SitePath := "/proxy/network/v2/api/site/default/"

  function RestUrl(c: Client, endpoint: string): string {
    c.baseUrl + SitePath + "rest/" + endpoint
  }

  function SettingUrl(c: Client, key: string): string {
    c.baseUrl + SitePath + "rest/setting/" + key
  }

  function StatUrl(c: Client, endpoint: string): string {
    c.baseUrl + SitePath + "stat/" + endpoint
  }

  function V2Url(c: Client, endpoint: string): string {
    c.baseUrl + V2SitePath + endpoint
  }

  /** A setting lives in the REST namespace, under "setting/". */
  lemma SettingUrlIsRestUrl(c: Client, key: string)
    ensures SettingUrl(c, key) == RestUrl(c, "setting/" + key)
  {
    assert c.baseUrl + SitePath + "rest/setting/" + key
        == (c.baseUrl + SitePath + "rest/") + ("setting/" + key);
  }

  /** The endpoint can be read back from a REST URL: distinct endpoints,
      distinct URLs. */
  lemma {:induction false} RestUrlInjective(c: Client, e1: string, e2: string)
    ensures RestUrl(c, e1) == RestUrl(c, e2) ==> e1 == e2
  {
    var n := |c.baseUrl + SitePath + "rest/"|;
    assert RestUrl(c, e1)[n..] == e1;
    assert RestUrl(c, e2)[n..] == e2;
  }

  /** The four templates never produce the same URL. */
  lemma {:induction false} TemplatesDisjoint(c: Client, e1: string, e2: string)
    ensures RestUrl(c, e1) != StatUrl(c, e2)
    ensures RestUrl(c, e1) != V2Url(c, e2)
    ensures StatUrl(c, e1) != V2Url(c, e2)
  {
    var b := |c.baseUrl|;
    assert RestUrl(c, e1)[b + 29] == 'r';
    assert StatUrl(c, e2)[b + 29] == 's';
    assert RestUrl(c, e1)[b + 15] == 'a';
    assert StatUrl(c, e1)[b + 15] == 'a';
    assert V2Url(c, e2)[b + 15] == 'v';
  }

  /** A GET carrying the client's API key and no body. */
  function GetRequest(c: Client, url: string): Request {
    Request(Get, url, c.apiKey, None)
  }

  /** The status rule shared by every call: a missing response or a non-2xx
      status is an error, and the status error carries the status and the
      body text without looking at the body as JSON. */
  function Acknowledged(resp: Response, fetchContext: string, statusContext: string): (r: Result<()>)
    ensures r.Ok? <==> resp.Response? && IsSuccess(resp.status)
    ensures resp.Unreachable? ==> r == Err(Transport(fetchContext))
    ensures resp.Response? && !IsSuccess(resp.status) ==>
              r == Err(Status(statusContext, resp.status, resp.text))
  {
    match resp
    case Unreachable => Err(Transport(fetchContext))
    case Response(status, text, _) =>
      if IsSuccess(status) then Ok(()) else Err(Status(statusContext, status, text))
  }

  /** The status rule, then the body parsed as JSON (`resp.json()?`). */
  function Received(resp: Response, fetchContext: string, statusContext: string): (r: Result<Json>)
    ensures r.Ok? <==> resp.Response? && IsSuccess(resp.status) && resp.parsed.Some?
    ensures r.Ok? ==> r.value == resp.parsed.value
    ensures Acknowledged(resp, fetchContext, statusContext).Err? ==>
              r.error == Acknowledged(resp, fetchContext, statusContext).error
    ensures Acknowledged(resp, fetchContext, statusContext).Ok? && r.Err? ==> r.error == Parse
  {
    match Acknowledged(resp, fetchContext, statusContext)
    case Err(e) => Err(e)
    case Ok(_) => if resp.parsed.Some? then Ok(resp.parsed.value) else Err(Parse)
  }

  /** The `data` member of a REST or stat envelope, whatever its kind, or an
      empty array when there is none. */
  function DataOrEmpty(body: Json): (r: Json)
    ensures body.Obj? && "data" in body.fields ==> r == body.fields["data"]
    ensures !(body.Obj? && "data" in body.fields) ==> r == Arr([])
  {
    Field(body, "data").GetOr(Arr([]))
  }

  /** `get_rest`: GET .../rest/<endpoint>, unwrapped to its `data` member. */
  function GetRest(c: Client, endpoint: string, send: Transport): (r: Result<Json>)
    ensures var resp := send(GetRequest(c, RestUrl(c, endpoint)));
            && (r.Ok? <==> resp.Response? && IsSuccess(resp.status) && resp.parsed.Some?)
            && (resp.Response? && IsSuccess(resp.status) && resp.parsed.None? ==> r == Err(Parse))
            && (r.Ok? ==> r.value == DataOrEmpty(resp.parsed.value))
            && (resp.Unreachable? ==> r == Err(Transport("Failed to fetch data")))
            && (resp.Response? && !IsSuccess(resp.status) ==>
                  r == Err(Status("Failed to get " + endpoint, resp.status, resp.text)))
  {
    var resp := send(GetRequest(c, RestUrl(c, endpoint)));
    match Received(resp, "Failed to fetch data", "Failed to get " + endpoint)
    case Err(e) => Err(e)
    case Ok(body) => Ok(DataOrEmpty(body))
  }

  /** `get_stat`: GET .../stat/<endpoint>, unwrapped exactly as `get_rest`. */
  function GetStat(c: Client, endpoint: string, send: Transport): (r: Result<Json>)
    ensures var resp := send(GetRequest(c, StatUrl(c, endpoint)));
            && (r.Ok? <==> resp.Response? && IsSuccess(resp.status) && resp.parsed.Some?)
            && (resp.Response? && IsSuccess(resp.status) && resp.parsed.None? ==> r == Err(Parse))
            && (r.Ok? ==> r.value == DataOrEmpty(resp.parsed.value))
            && (resp.Unreachable? ==> r == Err(Transport("Failed to fetch data")))
            && (resp.Response? && !IsSuccess(resp.status) ==>
                  r == Err(Status("Failed to get " + endpoint, resp.status, resp.text)))
  {
    var resp := send(GetRequest(c, StatUrl(c, endpoint)));
    match Received(resp, "Failed to fetch data", "Failed to get " + endpoint)
    case Err(e) => Err(e)
    case Ok(body) => Ok(DataOrEmpty(body))
  }

  /** `get_v2`: GET on the v2 API, whose body is the payload itself. */
  function GetV2(c: Client, endpoint: string, send: Transport): (r: Result<Json>)
    ensures var resp := send(GetRequest(c, V2Url(c, endpoint)));
            && (r.Ok? <==> resp.Response? && IsSuccess(resp.status) && resp.parsed.Some?)
            && (resp.Response? && IsSuccess(resp.status) && resp.parsed.None? ==> r == Err(Parse))
            && (r.Ok? ==> r.value == resp.parsed.value)
            && (resp.Unreachable? ==> r == Err(Transport("Failed to fetch data")))
            && (resp.Response? && !IsSuccess(resp.status) ==>
                  r == Err(Status("Failed to get " + endpoint, resp.status, resp.text)))
  {
    Received(send(GetRequest(c, V2Url(c, endpoint))), "Failed to fetch data", "Failed to get " + endpoint)
  }

  /** The message of a setting that is not there: "Setting '<key>' not found". */
  function SettingNotFound(key: string): string {
    "Setting '" + key + "' not found"
  }

  /** `get_setting`: GET .../rest/setting/<key>, the first element of `data`.
      A missing, non-array or empty `data` means the setting is not there. */
  function GetSetting(c: Client, key: string, send: Transport): (r: Result<Json>)
    ensures var resp := send(GetRequest(c, SettingUrl(c, key)));
            && (r.Ok? <==> resp.Response? && IsSuccess(resp.status) && resp.parsed.Some?
                           && var data := ArrayField(resp.parsed.value, "data");
                              data.Some? && |data.value| > 0)
            && (r.Ok? ==> r.value == ArrayField(resp.parsed.value, "data").value[0])
            && (resp.Response? && IsSuccess(resp.status) && resp.parsed.None? ==> r == Err(Parse))
            && (resp.Response? && IsSuccess(resp.status) && resp.parsed.Some? &&
                !(var data := ArrayField(resp.parsed.value, "data"); data.Some? && |data.value| > 0) ==>
                  r == Err(NotFound(SettingNotFound(key))))
            && (resp.Unreachable? ==> r == Err(Transport("Failed to fetch setting")))
            && (resp.Response? && !IsSuccess(resp.status) ==>
                  r == Err(Status("Failed to get setting", resp.status, resp.text)))
  {
    var resp := send(GetRequest(c, SettingUrl(c, key)));
    match Received(resp, "Failed to fetch setting", "Failed to get setting")
    case Err(e) => Err(e)
    case Ok(body) =>
      match ArrayField(body, "data")
      case Some(data) =>
        if |data| > 0 then Ok(data[0]) else Err(NotFound(SettingNotFound(key)))
      case None => Err(NotFound(SettingNotFound(key)))
  }
}
