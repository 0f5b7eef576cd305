/**
 * The legacy REST client of the Tailscale API: the client's base URL and
 * tailnet, the request line and headers of each endpoint, the reading of a
 * response into a body or an APIError, and the uniform APIResponse every
 * endpoint returns.
 *
 * The HTTP exchange is an outcome given to each call: the request could not
 * be made, or a status, the body as read (or the read error) and what the
 * body holds when decoded as a JSON object. Decoding a success body into
 * the endpoint's type is the oracle `decode`.
 */
module Api {
  import opened Wrappers
  import opened Text
  import LC = LegacyConfig

  datatype ApiClient = ApiClient(baseURL: string, apiKey: string, tailnet: string)

  /** NewAPIClient: one trailing "/" dropped before "/api/v2"; an empty tailnet is "-", the caller's own. */
  function NewAPIClient(cfg: LC.Config): (c: ApiClient)
    ensures c.apiKey == cfg.apiKey
    ensures c.tailnet == if cfg.tailnet == "" then "-" else cfg.tailnet
    ensures HasSuffix(c.baseURL, "/api/v2")
    ensures !HasSuffix(cfg.baseURL, "/") ==> c.baseURL == cfg.baseURL + "/api/v2"
    ensures HasSuffix(cfg.baseURL, "/") ==> c.baseURL == cfg.baseURL[..|cfg.baseURL| - 1] + "/api/v2"
  {
    var base := TrimSuffix(cfg.baseURL, "/") + "/api/v2";
    assert base[|base| - 7..] == "/api/v2";
    ApiClient(base, cfg.apiKey, if cfg.tailnet == "" then "-" else cfg.tailnet)
  }

  /**
   * Exactly one trailing slash is dropped, whatever precedes it: a URL
   * ending in two slashes keeps one of them before "/api/v2".
   */
  lemma OneSlashDropped(cfg: LC.Config, u: string)
    requires cfg.baseURL == u + "/"
    ensures NewAPIClient(cfg).baseURL == u + "/api/v2"
  {
    assert HasSuffix(cfg.baseURL, "/");
    assert cfg.baseURL[..|cfg.baseURL| - 1] == u;
  }

  /** The default URL, written with or without its trailing slash, gives the v2 API root. */
  lemma BaseUrlOfDefault(cfg: LC.Config)
    requires cfg.baseURL == "https://api.tailscale.com" || cfg.baseURL == "https://api.tailscale.com/"
    ensures NewAPIClient(cfg).baseURL == "https://api.tailscale.com/api/v2"
  {
    var plain := "https://api.tailscale.com";
    assert !HasSuffix(plain, "/") by {
      assert plain[|plain| - 1] == 'm';
    }
    if cfg.baseURL != plain {
      assert cfg.baseURL[..|cfg.baseURL| - 1] == plain;
    }
  }

  /** The headers makeRequest sets. */
  function Headers(c: ApiClient): (h: map<string, string>)
    ensures "Content-Type" in h && h["Content-Type"] == "application/json"
    ensures "Authorization" in h <==> c.apiKey != ""
    ensures "Authorization" in h ==> h["Authorization"] == "Bearer " + c.apiKey
    ensures h.Keys <= {"Content-Type", "Authorization"}
  {
    var h := map["Content-Type" := "application/json"];
    if c.apiKey != "" then h["Authorization" := "Bearer " + c.apiKey] else h
  }

  datatype Endpoint =
    | ListDevices
    | GetDevice(deviceId: string)
    | DeleteDevice(deviceId: string)
    | SetDeviceAuthorization(deviceId: string)
    | SetDeviceKeyExpiry(deviceId: string)
    | SetDeviceTags(deviceId: string)
    | SetDeviceRoutes(deviceId: string)
    | GetTailnetInfo
    | TestConnection
    | ListAuthKeys
    | CreateAuthKey
    | DeleteAuthKey(keyId: string)

  /** Whether the endpoint concerns one device. */
  predicate OnDevice(e: Endpoint) {
    e.GetDevice? || e.DeleteDevice? || e.SetDeviceAuthorization? || e.SetDeviceKeyExpiry? || e.SetDeviceTags? || e.SetDeviceRoutes?
  }

  /** The method of each endpoint. */
  function HttpMethod(e: Endpoint): string {
    match e
    case DeleteDevice(_) => "DELETE"
    case DeleteAuthKey(_) => "DELETE"
    case SetDeviceAuthorization(_) => "POST"
    case SetDeviceKeyExpiry(_) => "POST"
    case SetDeviceTags(_) => "POST"
    case SetDeviceRoutes(_) => "POST"
    case CreateAuthKey => "POST"
    case _ => "GET"
  }

  /** The path of each endpoint, after the base URL. */
  function Path(c: ApiClient, e: Endpoint): string {
    match e
    case ListDevices => "/tailnet/" + c.tailnet + "/devices"
    case GetDevice(id) => "/device/" + id
    case DeleteDevice(id) => "/device/" + id
    case SetDeviceAuthorization(id) => "/device/" + id + "/authorized"
    case SetDeviceKeyExpiry(id) => "/device/" + id + "/key"
    case SetDeviceTags(id) => "/device/" + id + "/tags"
    case SetDeviceRoutes(id) => "/device/" + id + "/routes"
    case GetTailnetInfo => "/tailnet/" + c.tailnet
    case TestConnection => "/tailnet/" + c.tailnet
    case ListAuthKeys => "/tailnet/" + c.tailnet + "/keys"
    case CreateAuthKey => "/tailnet/" + c.tailnet + "/keys"
    case DeleteAuthKey(k) => "/tailnet/" + c.tailnet + "/keys/" + k
  }

  /** The request URL: the client's base URL followed by the endpoint's path. */
  function Url(c: ApiClient, e: Endpoint): string {
    c.baseURL + Path(c, e)
  }

  /**
   * Device endpoints address the device by id; all others address the
   * client's tailnet; deleting a key names both. Mutations are POST or
   * DELETE, reads GET.
   */
  lemma PathShapes(c: ApiClient, e: Endpoint)
    ensures OnDevice(e) ==> HasPrefix(Path(c, e), "/device/" + e.deviceId)
    ensures !OnDevice(e) ==> HasPrefix(Path(c, e), "/tailnet/" + c.tailnet)
    ensures e.DeleteAuthKey? ==> Path(c, e) == "/tailnet/" + c.tailnet + "/keys/" + e.keyId
    ensures HttpMethod(e) == "GET" <==> e in {ListDevices, GetTailnetInfo, TestConnection, ListAuthKeys} || e.GetDevice?
    ensures HasPrefix(Url(c, e), c.baseURL)
  {
    var p := Path(c, e);
    if OnDevice(e) {
      var head := "/device/" + e.deviceId;
      assert p[..|head|] == head;
    } else {
      var head := "/tailnet/" + c.tailnet;
      assert p[..|head|] == head;
    }
    assert Url(c, e)[..|c.baseURL|] == c.baseURL;
  }

  /** The URL of a client built from a configuration whose base URL has no trailing "/". */
  lemma UrlOfConfiguredClient(cfg: LC.Config, e: Endpoint)
    requires !HasSuffix(cfg.baseURL, "/")
    ensures Url(NewAPIClient(cfg), e) == cfg.baseURL + "/api/v2" + Path(NewAPIClient(cfg), e)
  {
  }

  datatype ApiError = ApiError(message: string, statusCode: int)

  /** APIError.Error */
  function ApiErrorText(e: ApiError): string {
    "Tailscale API error (status " + IntToString(e.statusCode) + "): " + e.message
  }

  /** The errors an endpoint meets: an *APIError, or any other error with its text. */
  datatype CallError = StatusError(api: ApiError) | OtherError(text: string)

  /** What the body of an error response holds when decoded as a JSON object. */
  datatype ErrorBody =
    | NotAnObject
    | AnObject(message: Option<string>, error: Option<string>)  // each Some when present as a string

  /** The response to a request: its status, the body as read, and its decoding as an object. */
  datatype Reply = Reply(status: int, body: Result<string, string>, errorBody: ErrorBody)

  /** makeRequest's failures. */
  datatype RequestFailure = MarshalFailed(e: string) | CreateFailed(e: string) | SendFailed(e: string)

  function RequestFailureText(f: RequestFailure): string {
    match f
    case MarshalFailed(e) => "failed to marshal request body: " + e
    case CreateFailed(e) => "failed to create request: " + e
    case SendFailed(e) => "request failed: " + e
  }

  /** The message of an error status: the object's "message", else its "error", else "HTTP <code>". */
  function ErrorMessage(status: int, b: ErrorBody): string {
    if b.AnObject? && b.message.Some? then b.message.value
    else if b.AnObject? && b.error.Some? then b.error.value
    else "HTTP " + IntToString(status)
  }

  /** handleResponse */
  function HandleResponse(r: Reply): Result<string, CallError> {
    if r.body.Err? then Err(OtherError("failed to read response body: " + r.body.error))
    else if r.status >= 400 then Err(StatusError(ApiError(ErrorMessage(r.status, r.errorBody), r.status)))
    else Ok(r.body.value)
  }

  /**
   * A status below 400 gives the body; 400 and above give an APIError with
   * that status whose message is "message", else "error", else "HTTP <code>";
   * a body that cannot be read is a plain error whatever the status.
   */
  lemma ResponseClassification(r: Reply)
    ensures r.body.Ok? && r.status < 400 ==> HandleResponse(r) == Ok(r.body.value)
    ensures r.body.Ok? && r.status >= 400 ==>
            HandleResponse(r).Err? && HandleResponse(r).error.StatusError? &&
            HandleResponse(r).error.api.statusCode == r.status
    ensures r.body.Ok? && r.status >= 400 && r.errorBody.AnObject? && r.errorBody.message.Some? ==>
            HandleResponse(r).error.api.message == r.errorBody.message.value
    ensures r.body.Ok? && r.status >= 400 && r.errorBody.AnObject? && r.errorBody.message.None? && r.errorBody.error.Some? ==>
            HandleResponse(r).error.api.message == r.errorBody.error.value
    ensures r.body.Ok? && r.status >= 400 && (r.errorBody.NotAnObject? || (r.errorBody.message.None? && r.errorBody.error.None?)) ==>
            HandleResponse(r).error.api.message == "HTTP " + IntToString(r.status)
    ensures r.body.Err? ==> HandleResponse(r) == Err(OtherError("failed to read response body: " + r.body.error))
    ensures HandleResponse(r).Ok? <==> r.body.Ok? && r.status < 400
  {
  }

  /** APIResponse; the data is absent where Go leaves the zero value. */
  datatype ApiResponse<T> = ApiResponse(success: bool, data: Option<T>, error: string, statusCode: int)

  /** createSuccessResponse */
  function SuccessResponse<T>(data: Option<T>, statusCode: int): (r: ApiResponse<T>)
    ensures r.success && r.data == data && r.error == "" && r.statusCode == statusCode
  {
    ApiResponse(true, data, "", statusCode)
  }

  /** createErrorResponse: an APIError keeps its message and status; any other error gives its text and status 0. */
  function ErrorResponse<T>(e: CallError): (r: ApiResponse<T>)
    ensures !r.success && r.data.None?
    ensures e.StatusError? ==> r.error == e.api.message && r.statusCode == e.api.statusCode
    ensures e.OtherError? ==> r.error == e.text && r.statusCode == 0
  {
    match e
    case StatusError(a) => ApiResponse(false, None, a.message, a.statusCode)
    case OtherError(t) => ApiResponse(false, None, t, 0)
  }

  /** What an endpoint that decodes its body calls the body in its parse error. */
  function ParseLabel(e: Endpoint): Option<string> {
    match e
    case ListDevices => Some("device list")
    case GetDevice(_) => Some("device")
    case GetTailnetInfo => Some("tailnet info")
    case ListAuthKeys => Some("auth keys")
    case CreateAuthKey => Some("auth key")
    case _ => None
  }

  /**
   * One endpoint call: the request, then handleResponse, then, for the
   * endpoints that return data, the decoding of the body.
   */
  function Call<T>(e: Endpoint, outcome: Result<Reply, RequestFailure>, decode: string -> Result<T, string>): ApiResponse<T> {
    if outcome.Err? then ErrorResponse(OtherError(RequestFailureText(outcome.error)))
    else
      var reply := outcome.value;
      match HandleResponse(reply)
      case Err(ce) => ErrorResponse(ce)
      case Ok(body) =>
        if ParseLabel(e).None? then SuccessResponse(None, reply.status)
        else
          match decode(body)
          case Err(pe) => ErrorResponse(OtherError("failed to parse " + ParseLabel(e).value + ": " + pe))
          case Ok(v) => SuccessResponse(Some(v), reply.status)
  }

  /** TestConnection: the tailnet's info is fetched and its body ignored. */
  function TestConnectionResult(outcome: Result<Reply, RequestFailure>): ApiResponse<map<string, string>> {
    if outcome.Err? then ErrorResponse(OtherError(RequestFailureText(outcome.error)))
    else
      match HandleResponse(outcome.value)
      case Err(ce) => ErrorResponse(ce)
      case Ok(_) => SuccessResponse(Some(map["status" := "connected"]), outcome.value.status)
  }

  /**
   * Every endpoint succeeds exactly when the request was made, the body read,
   * the status below 400 and (where there is data) the body decoded; a
   * success carries the response's status and an error status is reported
   * as it came; failures before a response have status 0.
   */
  lemma CallOutcomes<T>(e: Endpoint, outcome: Result<Reply, RequestFailure>, decode: string -> Result<T, string>)
    ensures Call(e, outcome, decode).success <==>
            outcome.Ok? && outcome.value.body.Ok? && outcome.value.status < 400 &&
            (ParseLabel(e).Some? ==> decode(outcome.value.body.value).Ok?)
    ensures Call(e, outcome, decode).success ==>
            Call(e, outcome, decode).statusCode == outcome.value.status &&
            (ParseLabel(e).Some? ==> Call(e, outcome, decode).data == Some(decode(outcome.value.body.value).value)) &&
            (ParseLabel(e).None? ==> Call(e, outcome, decode).data.None?)
    ensures outcome.Ok? && outcome.value.body.Ok? && outcome.value.status >= 400 ==>
            Call(e, outcome, decode).statusCode == outcome.value.status &&
            Call(e, outcome, decode).error == ErrorMessage(outcome.value.status, outcome.value.errorBody)
    ensures outcome.Err? || outcome.value.body.Err? ==> Call(e, outcome, decode).statusCode == 0
    ensures outcome.Err? ==> Call(e, outcome, decode).error == RequestFailureText(outcome.error)
  {
  }

  /** TestConnection's data on success is exactly {"status": "connected"}. */
  lemma TestConnectionData(outcome: Result<Reply, RequestFailure>)
    ensures TestConnectionResult(outcome).success ==>
            TestConnectionResult(outcome).data == Some(map["status" := "connected"])
    ensures TestConnectionResult(outcome).success <==> outcome.Ok? && outcome.value.body.Ok? && outcome.value.status < 400
  {
  }
}
