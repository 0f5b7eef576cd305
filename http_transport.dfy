/**
 * The HTTP transport: three routes behind a CORS middleware and a logging
 * middleware. POST /mcp routes the decoded body with the same table as
 * stdio and turns an error's code into the HTTP status; OPTIONS /mcp is a
 * preflight answered by the middleware alone; /health and /info are
 * constant.
 *
 * The body's decoding is an Envelope given with the request. Requests the
 * router matches to no route are answered by the router itself, without
 * the middlewares, and are not modelled.
 */
module HttpTransport {
  import opened Wrappers
  import opened McpTypes
  import opened Registry
  import opened McpServer
  import opened Dispatch

  const StatusOK := 200
  const StatusBadRequest := 400
  const StatusNotFound := 404
  const StatusInternalServerError := 500

  const ServerName := "tailscale-mcp-server"

  /** sendError's mapping from an error code to an HTTP status. */
  function StatusFor(code: int): int {
    if code == ParseErrorCode || code == InvalidRequestCode || code == InvalidParamsCode then StatusBadRequest
    else if code == MethodNotFoundCode || code == ToolNotFoundCode then StatusNotFound
    else StatusInternalServerError
  }

  /** The four headers corsMiddleware sets on every request it sees. */
  const CorsHeaders: map<string, string> := map[
    "Access-Control-Allow-Origin" := "*",
    "Access-Control-Allow-Methods" := "GET, POST, OPTIONS",
    "Access-Control-Allow-Headers" := "Content-Type, Authorization",
    "Access-Control-Max-Age" := "86400"]

  /** The headers of a JSON reply: the CORS ones and the content type. */
  const JsonHeaders: map<string, string> := CorsHeaders["Content-Type" := "application/json"]

  datatype HttpRequest = HttpRequest(httpMethod: string, path: string, body: Envelope)

  datatype Body =
    | NoBody
    | Rpc(reply: Reply)
    | Health(fields: map<string, string>)
    | Info(name: string, version: string, protocolVersion: string, listChanged: bool)

  datatype HttpResponse = HttpResponse(status: int, headers: map<string, string>, body: Body)

  /** writeJSON after sendResponse or sendError: 200 for a result, the mapped status for an error. */
  function ReplyStatus(r: Reply): int {
    if r.error.Some? then StatusFor(r.error.value.code) else StatusOK
  }

  /** handleMCPRequest for a POST. */
  function HandleMcp(m: Envelope, s: ServerModel): HttpResponse {
    var reply := HandleMessage(m, s);
    HttpResponse(ReplyStatus(reply), JsonHeaders, Rpc(reply))
  }

  const HealthFields: map<string, string> := map["status" := "healthy", "server" := ServerName]

  /** The routed requests: the middlewares, then the handler. None when no route matches. */
  function Serve(req: HttpRequest, s: ServerModel): Option<HttpResponse> {
    if req.path == "/mcp" && (req.httpMethod == "POST" || req.httpMethod == "OPTIONS") then
      if req.httpMethod == "OPTIONS" then Some(HttpResponse(StatusOK, CorsHeaders, NoBody))
      else Some(HandleMcp(req.body, s))
    else if req.path == "/health" && req.httpMethod == "GET" then
      Some(HttpResponse(StatusOK, JsonHeaders, Health(HealthFields)))
    else if req.path == "/info" && req.httpMethod == "GET" then
      Some(HttpResponse(StatusOK, JsonHeaders, Info(ServerName, "dev", ProtocolVersion, false)))
    else None
  }

  /**
   * sendError's table: the three malformed-request codes give 400, the two
   * not-found codes 404, every other code 500.
   */
  lemma StatusTable(code: int)
    ensures StatusFor(code) == 400 <==> code == -32700 || code == -32600 || code == -32602
    ensures StatusFor(code) == 404 <==> code == -32601 || code == -32001
    ensures StatusFor(code) == 500 <==> !(code in {-32700, -32600, -32602, -32601, -32001})
    ensures StatusFor(code) in {400, 404, 500}
  {
  }

  /** The errors the constructors build get their fixed status; internal, protocol and tool failures give 500. */
  lemma ConstructorStatuses(d: Data, methodName: string, tool: string, errText: string, c: string, v: string)
    ensures StatusFor(NewParseError(d).code) == 400 && StatusFor(NewInvalidRequestError(d).code) == 400
    ensures StatusFor(NewInvalidParamsError(d).code) == 400
    ensures StatusFor(NewMethodNotFoundError(methodName).code) == 404 && StatusFor(NewToolNotFoundError(tool).code) == 404
    ensures StatusFor(NewInternalError(d).code) == 500 && StatusFor(NewToolExecutionError(tool, errText).code) == 500
    ensures StatusFor(NewUnsupportedProtocolError(c, v).code) == 500
  {
  }

  /**
   * POST /mcp replies with the very reply the shared table gives (so the
   * routing is the stdio one), with status 200 exactly when that reply is
   * a result and the error's mapped status otherwise; a body that does not
   * decode is a 400 parse error with no id.
   */
  lemma PostMcp(req: HttpRequest, s: ServerModel)
    requires req.path == "/mcp" && req.httpMethod == "POST"
    ensures Serve(req, s).Some?
    ensures Serve(req, s).value.body == Rpc(HandleMessage(req.body, s))
    ensures Serve(req, s).value.status == 200 <==> HandleMessage(req.body, s).result.Some?
    ensures HandleMessage(req.body, s).error.Some? ==>
            Serve(req, s).value.status == StatusFor(HandleMessage(req.body, s).error.value.code)
    ensures req.body.Unparsable? ==>
            Serve(req, s).value.status == 400 && Serve(req, s).value.body.reply.id == "" &&
            Serve(req, s).value.body.reply.error.value.code == ParseErrorCode
  {
    var reply := HandleMessage(req.body, s);
    if reply.error.Some? {
      StatusTable(reply.error.value.code);
    }
  }

  /**
   * The preflight OPTIONS /mcp is answered 200 with the CORS headers and no
   * body, whatever the body and the server: the MCP handler is not reached.
   */
  lemma Preflight(req: HttpRequest, s: ServerModel, t: ServerModel)
    requires req.path == "/mcp" && req.httpMethod == "OPTIONS"
    ensures Serve(req, s) == Serve(req, t) == Some(HttpResponse(200, CorsHeaders, NoBody))
  {
  }

  /** Every routed request carries the four CORS headers. */
  lemma CorsOnEveryRoute(req: HttpRequest, s: ServerModel)
    requires Serve(req, s).Some?
    ensures forall h :: h in CorsHeaders ==> h in Serve(req, s).value.headers && Serve(req, s).value.headers[h] == CorsHeaders[h]
    ensures Serve(req, s).value.headers["Access-Control-Allow-Origin"] == "*"
  {
  }

  /**
   * /health and /info are constant and never consult the server: 200, the
   * health fields, and the static identity with listChanged false.
   */
  lemma StaticEndpoints(s: ServerModel, t: ServerModel, body: Envelope)
    ensures var health := HttpRequest("GET", "/health", body);
            Serve(health, s) == Serve(health, t) &&
            Serve(health, s).value.status == 200 &&
            Serve(health, s).value.body.fields == map["status" := "healthy", "server" := "tailscale-mcp-server"]
    ensures var info := HttpRequest("GET", "/info", body);
            Serve(info, s) == Serve(info, t) &&
            Serve(info, s).value.status == 200 &&
            Serve(info, s).value.body == Info("tailscale-mcp-server", "dev", "2024-11-05", false)
  {
  }

  /**
   * Over MCPServer, a tools/call naming a tool the registry lacks is a 404,
   * and one whose tool fails is a 500.
   */
  lemma ToolCallStatuses(req: HttpRequest, name: string, version: string, tools: map<string, ToolImpl>, exec: Executor, listing: seq<Tool>)
    requires req.path == "/mcp" && req.httpMethod == "POST"
    requires req.body.Envelope? && req.body.methodField == MethodName(MethodCallTool) && req.body.asCallTool.WithParams?
    ensures var s := AsServerModel(name, version, tools, exec, listing);
            var p := req.body.asCallTool.params;
            (p.name !in tools ==> Serve(req, s).value.status == 404) &&
            (p.name in tools && exec(tools[p.name], p.arguments).Err? ==> Serve(req, s).value.status == 500)
  {
    DispatchOntoMcpServer(req.body, name, version, tools, exec, listing);
  }

  /** How Start ends: the context is done and the graceful shutdown did or did not fail, or ListenAndServe failed. */
  datatype HttpStop = ContextDone(cause: ContextError, shutdownError: Option<string>) | ListenFailed(err: string)

  /**
   * Start: ctx.Err() after a graceful shutdown, otherwise the error of the
   * shutdown or of ListenAndServe. http.ErrServerClosed is never returned.
   */
  function StartResult(stop: HttpStop): (r: StopError)
    ensures r.Failed? ==> !r.wrapsServerClosed
    ensures r == ContextStopped(Canceled) <==> stop == ContextDone(Canceled, None)
  {
    match stop
    case ContextDone(cause, None) => ContextStopped(cause)
    case ContextDone(_, Some(e)) => Failed(e, false)
    case ListenFailed(e) => Failed(e, false)
  }

  /**
   * responseWriter: the logging middleware's wrapper, which records the
   * last status passed to WriteHeader and forwards each one.
   */
  class StatusRecorder {
    var statusCode: int
    /** The WriteHeader calls forwarded to the wrapped writer. */
    var forwarded: seq<int>

    /** As the logging middleware creates it: status 200 until told otherwise. */
    constructor ()
      ensures statusCode == 200 && forwarded == []
    {
      statusCode := StatusOK;
      forwarded := [];
    }

    method WriteHeader(code: int)
      modifies this
      ensures statusCode == code && forwarded == old(forwarded) + [code]
    {
      statusCode := code;
      forwarded := forwarded + [code];
    }
  }

  /**
   * The status the logging middleware records for a handler that makes the
   * given WriteHeader calls: the last one, or 200 when there is none; every
   * call reaches the wrapped writer.
   */
  method LoggedStatus(writes: seq<int>) returns (status: int, forwarded: seq<int>)
    ensures status == if |writes| == 0 then 200 else writes[|writes| - 1]
    ensures forwarded == writes
  {
    var wrapper := new StatusRecorder();
    var i := 0;
    while i < |writes|
      invariant 0 <= i <= |writes|
      invariant wrapper.statusCode == if i == 0 then 200 else writes[i - 1]
      invariant wrapper.forwarded == writes[..i]
    {
      wrapper.WriteHeader(writes[i]);
      assert writes[..i + 1] == writes[..i] + [writes[i]];
      i := i + 1;
    }
    assert writes[..|writes|] == writes;
    status := wrapper.statusCode;
    forwarded := wrapper.forwarded;
  }

  /**
   * The logged status of a routed request other than the preflight, taking
   * its response's one status as the single header written.
   */
  method LoggedStatusOfRouted(req: HttpRequest, s: ServerModel) returns (logged: int)
    requires Serve(req, s).Some? && req.httpMethod != "OPTIONS"
    ensures logged == Serve(req, s).value.status
  {
    var response := Serve(req, s).value;
    var forwarded;
    logged, forwarded := LoggedStatus([response.status]);
  }
}
