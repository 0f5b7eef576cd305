/**
 * The routing both transports share: a decoded JSON-RPC message is routed,
 * by its method, to one of the four Server operations, and every message
 * gets exactly one reply, a response or an error message carrying the
 * message's id.
 *
 * JSON decoding is not modelled. What the transports learn from a message
 * is an Envelope: whether it decoded as an object at all (null does, as an
 * empty map, and so arrives as an Envelope with no id and no method), the
 * raw id, the method member (absent, not a string, or a name), and the
 * outcome of decoding the whole message again with a typed params member,
 * once per request type.
 */
module Dispatch {
  import opened Wrappers
  import opened McpTypes
  import opened Registry
  import opened McpServer

  /** The error of a done context: context.Canceled or context.DeadlineExceeded. */
  datatype ContextError = Canceled | DeadlineExceeded

  /**
   * The error a transport's Start returns: `ctx.Err()` itself, or another
   * error, with whether errors.Is finds http.ErrServerClosed in its chain.
   */
  datatype StopError = ContextStopped(cause: ContextError) | Failed(text: string, wrapsServerClosed: bool)

  /** The method member of the raw object. */
  datatype MethodField = NoMethod | NotAString | MethodName(name: string)

  /** Decoding the message as Message[T, any]: an error, no params (nil), or params. */
  datatype Decoded<T> = DecodeError(reason: string) | NoParams | WithParams(params: T)

  /** The empty request types ListToolsRequest and ShutdownRequest. */
  datatype EmptyRequest = EmptyRequest

  datatype Envelope =
    | Unparsable(reason: string)
    | Envelope(
        id: string,
        methodField: MethodField,
        asInitialize: Decoded<InitializeRequest>,
        asCallTool: Decoded<CallToolRequest>,
        asEmpty: Decoded<EmptyRequest>)

  /** What a successful reply carries. shutdown's is the empty object `{}`. */
  datatype ResultValue =
    | Initialized(init: InitializeResponse)
    | ToolList(tools: seq<Tool>)
    | ToolCalled(call: CallToolResponse)
    | EmptyObject

  type Reply = Message<EmptyRequest, ResultValue>

  /** sendResponse: the result is always set. */
  function ResultReply(id: string, r: ResultValue): Reply {
    NewResponse(id, Some(r))
  }

  /** sendError. */
  function ErrorReply(id: string, e: McpError): Reply {
    NewErrorMessage(id, Some(e))
  }

  /** errors.As(err, &mcpErr): the *Error in the chain if there is one, else the fallback. */
  function McpErrorOf(f: Failure, fallback: McpError): McpError {
    f.mcp.GetOr(fallback)
  }

  /** The method name the switch sees: an absent method is the empty string. */
  function MethodOf(m: MethodField): string {
    if m.MethodName? then m.name else ""
  }

  function HandleInitialize(id: string, d: Decoded<InitializeRequest>, s: ServerModel): Reply {
    match d
    case DecodeError(e) => ErrorReply(id, NewInvalidParamsError(TextData(e)))
    case NoParams => ErrorReply(id, NewInvalidParamsError(TextData("missing params")))
    case WithParams(p) =>
      match s.initialize(Some(p))
      case Ok(response) => ResultReply(id, Initialized(response))
      case Err(f) => ErrorReply(id, McpErrorOf(f, NewInternalError(TextData(f.text))))
  }

  /** tools/list without params proceeds with an empty request. */
  function HandleListTools(id: string, d: Decoded<EmptyRequest>, s: ServerModel): Reply {
    match d
    case DecodeError(e) => ErrorReply(id, NewInvalidParamsError(TextData(e)))
    case _ =>
      match s.listTools()
      case Ok(tools) => ResultReply(id, ToolList(tools))
      case Err(f) => ErrorReply(id, McpErrorOf(f, NewInternalError(TextData(f.text))))
  }

  function HandleCallTool(id: string, d: Decoded<CallToolRequest>, s: ServerModel): Reply {
    match d
    case DecodeError(e) => ErrorReply(id, NewInvalidParamsError(TextData(e)))
    case NoParams => ErrorReply(id, NewInvalidParamsError(TextData("missing params")))
    case WithParams(p) =>
      match s.callTool(p)
      case Ok(response) => ResultReply(id, ToolCalled(response))
      case Err(f) => ErrorReply(id, McpErrorOf(f, NewToolExecutionError(p.name, f.text)))
  }

  /** shutdown does not insist on params. */
  function HandleShutdown(id: string, d: Decoded<EmptyRequest>, s: ServerModel): Reply {
    match d
    case DecodeError(e) => ErrorReply(id, NewInvalidParamsError(TextData(e)))
    case _ =>
      match s.shutdown()
      case None => ResultReply(id, EmptyObject)
      case Some(f) => ErrorReply(id, McpErrorOf(f, NewInternalError(TextData(f.text))))
  }

  /**
   * handleMessage / handleMCPRequest: every message gets exactly one reply,
   * which is a response or an error message, never both and never neither;
   * it carries the message's id, and a message that does not decode as a
   * JSON object (or as null, which decodes to an empty map) gets a parse
   * error with no id.
   */
  function HandleMessage(m: Envelope, s: ServerModel): (reply: Reply)
    ensures ShapeOf(reply) == ResultShape || ShapeOf(reply) == ErrorShape
    ensures m.Envelope? ==> reply.id == m.id
    ensures m.Unparsable? ==> reply == ErrorReply("", NewParseError(TextData(m.reason)))
  {
    match m
    case Unparsable(reason) => ErrorReply("", NewParseError(TextData(reason)))
    case Envelope(id, methodField, asInitialize, asCallTool, asEmpty) =>
      if methodField.NotAString? then ErrorReply(id, NewInvalidRequestError(TextData("invalid method")))
      else
        var name := MethodOf(methodField);
        if name == MethodInitialize then HandleInitialize(id, asInitialize, s)
        else if name == MethodListTools then HandleListTools(id, asEmpty, s)
        else if name == MethodCallTool then HandleCallTool(id, asCallTool, s)
        else if name == MethodShutdown then HandleShutdown(id, asEmpty, s)
        else ErrorReply(id, NewMethodNotFoundError(name))
  }

  /** One of the four methods the switch routes. */
  predicate IsRouted(name: string) {
    name == MethodInitialize || name == MethodListTools || name == MethodCallTool || name == MethodShutdown
  }

  /**
   * The routing table's refusals: a non-string method is an invalid request
   * echoing the id; an absent or unknown method is "method not found" naming
   * it (the empty name when absent); initialize and tools/call without
   * params are invalid params "missing params"; a typed decode failure of
   * the routed method is invalid params carrying its text.
   */
  lemma RoutingRefusals(m: Envelope, s: ServerModel)
    requires m.Envelope?
    ensures m.methodField.NotAString? ==>
            HandleMessage(m, s) == ErrorReply(m.id, NewInvalidRequestError(TextData("invalid method")))
    ensures !m.methodField.NotAString? && !IsRouted(MethodOf(m.methodField)) ==>
            HandleMessage(m, s) == ErrorReply(m.id, NewMethodNotFoundError(MethodOf(m.methodField)))
    ensures m.methodField.NoMethod? ==>
            HandleMessage(m, s).error == Some(McpError(MethodNotFoundCode, "Method not found", FieldsData(map["method" := ""])))
    ensures m.methodField == MethodName(MethodInitialize) && m.asInitialize.NoParams? ==>
            HandleMessage(m, s) == ErrorReply(m.id, NewInvalidParamsError(TextData("missing params")))
    ensures m.methodField == MethodName(MethodCallTool) && m.asCallTool.NoParams? ==>
            HandleMessage(m, s) == ErrorReply(m.id, NewInvalidParamsError(TextData("missing params")))
    ensures m.methodField == MethodName(MethodInitialize) && m.asInitialize.DecodeError? ==>
            HandleMessage(m, s) == ErrorReply(m.id, NewInvalidParamsError(TextData(m.asInitialize.reason)))
    ensures m.methodField == MethodName(MethodCallTool) && m.asCallTool.DecodeError? ==>
            HandleMessage(m, s) == ErrorReply(m.id, NewInvalidParamsError(TextData(m.asCallTool.reason)))
    ensures (m.methodField == MethodName(MethodListTools) || m.methodField == MethodName(MethodShutdown)) && m.asEmpty.DecodeError? ==>
            HandleMessage(m, s) == ErrorReply(m.id, NewInvalidParamsError(TextData(m.asEmpty.reason)))
  {
  }

  /**
   * Routed requests reach the server: tools/list with or without params
   * replies with the server's listing, shutdown with `{}` when the server
   * returns nil, initialize and tools/call with the server's response.
   */
  lemma RoutingSuccesses(m: Envelope, s: ServerModel)
    requires m.Envelope?
    ensures m.methodField == MethodName(MethodListTools) && !m.asEmpty.DecodeError? && s.listTools().Ok? ==>
            HandleMessage(m, s) == ResultReply(m.id, ToolList(s.listTools().value))
    ensures m.methodField == MethodName(MethodShutdown) && !m.asEmpty.DecodeError? && s.shutdown().None? ==>
            HandleMessage(m, s) == ResultReply(m.id, EmptyObject)
    ensures m.methodField == MethodName(MethodInitialize) && m.asInitialize.WithParams? &&
            s.initialize(Some(m.asInitialize.params)).Ok? ==>
            HandleMessage(m, s) == ResultReply(m.id, Initialized(s.initialize(Some(m.asInitialize.params)).value))
    ensures m.methodField == MethodName(MethodCallTool) && m.asCallTool.WithParams? &&
            s.callTool(m.asCallTool.params).Ok? ==>
            HandleMessage(m, s) == ResultReply(m.id, ToolCalled(s.callTool(m.asCallTool.params).value))
  {
  }

  /**
   * A server failure: an *Error in its chain is passed through unchanged;
   * any other error becomes an internal error with its text, except for
   * tools/call, where it becomes a tool execution error naming the tool.
   */
  lemma FailuresPassThrough(m: Envelope, s: ServerModel)
    requires m.Envelope?
    ensures m.methodField == MethodName(MethodInitialize) && m.asInitialize.WithParams? &&
            s.initialize(Some(m.asInitialize.params)).Err? ==>
            var f := s.initialize(Some(m.asInitialize.params)).error;
            HandleMessage(m, s).error == Some(if f.mcp.Some? then f.mcp.value else NewInternalError(TextData(f.text)))
    ensures m.methodField == MethodName(MethodListTools) && !m.asEmpty.DecodeError? && s.listTools().Err? ==>
            var f := s.listTools().error;
            HandleMessage(m, s).error == Some(if f.mcp.Some? then f.mcp.value else NewInternalError(TextData(f.text)))
    ensures m.methodField == MethodName(MethodCallTool) && m.asCallTool.WithParams? &&
            s.callTool(m.asCallTool.params).Err? ==>
            var f := s.callTool(m.asCallTool.params).error;
            HandleMessage(m, s).error ==
              Some(if f.mcp.Some? then f.mcp.value else NewToolExecutionError(m.asCallTool.params.name, f.text))
    ensures m.methodField == MethodName(MethodShutdown) && !m.asEmpty.DecodeError? && s.shutdown().Some? ==>
            var f := s.shutdown().value;
            HandleMessage(m, s).error == Some(if f.mcp.Some? then f.mcp.value else NewInternalError(TextData(f.text)))
  {
  }

  /**
   * Dispatch onto MCPServer: a tools/call naming a tool the registry does not
   * hold is answered with the ToolNotFound error, and one whose tool fails
   * with the ToolExecution error carrying that failure's text; an
   * initialize the validator refuses is answered with the validator's error.
   */
  lemma DispatchOntoMcpServer(m: Envelope, name: string, version: string, tools: map<string, ToolImpl>, exec: Executor, listing: seq<Tool>)
    requires m.Envelope?
    ensures var s := AsServerModel(name, version, tools, exec, listing);
            m.methodField == MethodName(MethodCallTool) && m.asCallTool.WithParams? && m.asCallTool.params.name !in tools ==>
            HandleMessage(m, s) == ErrorReply(m.id, NewToolNotFoundError(m.asCallTool.params.name))
    ensures var s := AsServerModel(name, version, tools, exec, listing);
            m.methodField == MethodName(MethodCallTool) && m.asCallTool.WithParams? ==>
            var p := m.asCallTool.params;
            p.name in tools && exec(tools[p.name], p.arguments).Err? ==>
            HandleMessage(m, s) == ErrorReply(m.id, NewToolExecutionError(p.name, exec(tools[p.name], p.arguments).error.text))
    ensures var s := AsServerModel(name, version, tools, exec, listing);
            m.methodField == MethodName(MethodInitialize) && m.asInitialize.WithParams? ==>
            var v := ValidateInitializeRequest(Some(m.asInitialize.params));
            v.Some? ==> HandleMessage(m, s) == ErrorReply(m.id, v.value)
  {
    var s := AsServerModel(name, version, tools, exec, listing);
    if m.methodField == MethodName(MethodCallTool) && m.asCallTool.WithParams? {
      CallToolOutcomes(tools, exec, m.asCallTool.params);
    }
  }
}
