/**
 * The MCP protocol types: JSON-RPC 2.0 error codes and error constructors,
 * the message envelope and its factories, the protocol-version check, the
 * initialize-request validation and the tool-result content helpers.
 *
 * JSON is not modelled: an id is its raw JSON text (empty when absent), the
 * free-form `data` of an error is an abstract value, and params and results
 * are type parameters.
 */
module McpTypes {
  import opened Wrappers

  const ProtocolVersion := "2024-11-05"

  const MethodInitialize := "initialize"
  const MethodListTools := "tools/list"
  const MethodCallTool := "tools/call"
  const MethodShutdown := "shutdown"

  // JSON-RPC 2.0 error codes
  const ParseErrorCode := -32700
  const InvalidRequestCode := -32600
  const MethodNotFoundCode := -32601
  const InvalidParamsCode := -32602
  const InternalErrorCode := -32603

  // MCP-specific error codes
  const UnsupportedProtocolCode := -32000
  const ToolNotFoundCode := -32001
  const ToolExecutionErrorCode := -32002

  /** The `data` of an error: absent, a text, or an object of string fields. */
  datatype Data = NoData | TextData(text: string) | FieldsData(fields: map<string, string>)

  datatype McpError = McpError(code: int, message: string, data: Data)

  /** Error.Error: the message alone. */
  function ErrorString(e: McpError): string {
    e.message
  }

  // ---------------------------------------------------------------------------
  // Error constructors
  // ---------------------------------------------------------------------------

  function NewParseError(data: Data): McpError {
    McpError(ParseErrorCode, "Parse error", data)
  }

  function NewInvalidRequestError(data: Data): McpError {
    McpError(InvalidRequestCode, "Invalid Request", data)
  }

  function NewMethodNotFoundError(methodName: string): McpError {
    McpError(MethodNotFoundCode, "Method not found", FieldsData(map["method" := methodName]))
  }

  function NewInvalidParamsError(data: Data): McpError {
    McpError(InvalidParamsCode, "Invalid params", data)
  }

  function NewInternalError(data: Data): McpError {
    McpError(InternalErrorCode, "Internal error", data)
  }

  function NewUnsupportedProtocolError(clientVersion: string, serverVersion: string): McpError {
    McpError(UnsupportedProtocolCode, "Unsupported protocol version",
             FieldsData(map["clientVersion" := clientVersion, "serverVersion" := serverVersion]))
  }

  function NewToolNotFoundError(toolName: string): McpError {
    McpError(ToolNotFoundCode, "Tool not found", FieldsData(map["tool" := toolName]))
  }

  /** The tool execution error records the failing tool and the text of its error. */
  function NewToolExecutionError(toolName: string, errText: string): McpError {
    McpError(ToolExecutionErrorCode, "Tool execution failed", FieldsData(map["tool" := toolName, "error" := errText]))
  }

  /** One of the constructors, named, with the arguments it takes. */
  datatype ErrorKind =
    | ParseErrorKind(d: Data)
    | InvalidRequestKind(d: Data)
    | MethodNotFoundKind(methodName: string)
    | InvalidParamsKind(d: Data)
    | InternalErrorKind(d: Data)
    | UnsupportedProtocolKind(clientVersion: string, serverVersion: string)
    | ToolNotFoundKind(tool: string)
    | ToolExecutionKind(tool: string, errText: string)

  function Construct(k: ErrorKind): McpError {
    match k
    case ParseErrorKind(d) => NewParseError(d)
    case InvalidRequestKind(d) => NewInvalidRequestError(d)
    case MethodNotFoundKind(m) => NewMethodNotFoundError(m)
    case InvalidParamsKind(d) => NewInvalidParamsError(d)
    case InternalErrorKind(d) => NewInternalError(d)
    case UnsupportedProtocolKind(c, s) => NewUnsupportedProtocolError(c, s)
    case ToolNotFoundKind(t) => NewToolNotFoundError(t)
    case ToolExecutionKind(t, e) => NewToolExecutionError(t, e)
  }

  /** Two kinds that name the same constructor, whatever their arguments. */
  predicate SameConstructor(a: ErrorKind, b: ErrorKind) {
    (a.ParseErrorKind? && b.ParseErrorKind?) || (a.InvalidRequestKind? && b.InvalidRequestKind?) ||
    (a.MethodNotFoundKind? && b.MethodNotFoundKind?) || (a.InvalidParamsKind? && b.InvalidParamsKind?) ||
    (a.InternalErrorKind? && b.InternalErrorKind?) || (a.UnsupportedProtocolKind? && b.UnsupportedProtocolKind?) ||
    (a.ToolNotFoundKind? && b.ToolNotFoundKind?) || (a.ToolExecutionKind? && b.ToolExecutionKind?)
  }

  /**
   * Each constructor fixes its code and message: two errors have the same
   * code, and then the same message, exactly when they come from the same
   * constructor; only the data varies.
   */
  lemma ConstructorsFixCodeAndMessage(a: ErrorKind, b: ErrorKind)
    ensures Construct(a).code == Construct(b).code <==> SameConstructor(a, b)
    ensures SameConstructor(a, b) ==> Construct(a).message == Construct(b).message
  {
  }

  /**
   * An error reads as its message, which is never empty; its code is one of
   * JSON-RPC's reserved codes, in the server-error range exactly for the
   * MCP-specific constructors.
   */
  lemma ConstructorCodeRange(a: ErrorKind)
    ensures ErrorString(Construct(a)) == Construct(a).message != ""
    ensures -32768 <= Construct(a).code <= -32000
    ensures Construct(a).code > -32100 <==> a.UnsupportedProtocolKind? || a.ToolNotFoundKind? || a.ToolExecutionKind?
  {
  }

  /** The data of the errors that carry names. */
  lemma ConstructorData(methodName: string, client: string, server: string, tool: string, errText: string)
    ensures NewMethodNotFoundError(methodName).data.fields == map["method" := methodName]
    ensures NewUnsupportedProtocolError(client, server).data.fields.Keys == {"clientVersion", "serverVersion"}
    ensures NewUnsupportedProtocolError(client, server).data.fields["clientVersion"] == client
    ensures NewUnsupportedProtocolError(client, server).data.fields["serverVersion"] == server
    ensures NewToolNotFoundError(tool).data.fields == map["tool" := tool]
    ensures NewToolExecutionError(tool, errText).data.fields.Keys == {"tool", "error"}
    ensures NewToolExecutionError(tool, errText).data.fields["error"] == errText
  {
  }

  // ---------------------------------------------------------------------------
  // Messages
  // ---------------------------------------------------------------------------

  /** Message[T, R]; `id` is the raw JSON of the id, empty when there is none. */
  datatype Message<P, R> = Message(
    jsonrpc: string,
    id: string,
    methodName: string,
    params: Option<P>,
    result: Option<R>,
    error: Option<McpError>)

  /** What a JSON-RPC 2.0 message is, by which of its members are present. */
  datatype Shape = RequestShape | NotificationShape | ResultShape | ErrorShape | Malformed

  function ShapeOf<P, R>(m: Message<P, R>): Shape {
    if m.jsonrpc != "2.0" then Malformed
    else if m.methodName != "" && m.result.None? && m.error.None? then
      (if m.id == "" then NotificationShape else RequestShape)
    else if m.methodName == "" && m.params.None? && m.result.Some? && m.error.None? then ResultShape
    else if m.methodName == "" && m.params.None? && m.result.None? && m.error.Some? then ErrorShape
    else Malformed
  }

  function NewRequest<P, R>(id: string, methodName: string, params: Option<P>): Message<P, R> {
    Message("2.0", id, methodName, params, None, None)
  }

  function NewResponse<P, R>(id: string, result: Option<R>): Message<P, R> {
    Message("2.0", id, "", None, result, None)
  }

  function NewErrorMessage<P, R>(id: string, err: Option<McpError>): Message<P, R> {
    Message("2.0", id, "", None, None, err)
  }

  function NewNotification<P, R>(methodName: string, params: Option<P>): Message<P, R> {
    Message("2.0", "", methodName, params, None, None)
  }

  /**
   * Each factory builds the message it is named for, with the id it is
   * given: a request with a method and an id, a notification with a method
   * and no id, a response with only a result, an error message with only an
   * error. A response or error message built from a nil value is malformed.
   */
  lemma FactoryShapes<P, R>(id: string, methodName: string, params: Option<P>, result: Option<R>, err: Option<McpError>)
    requires methodName != ""
    ensures ShapeOf(NewRequest<P, R>(id, methodName, params)) == if id == "" then NotificationShape else RequestShape
    ensures ShapeOf(NewNotification<P, R>(methodName, params)) == NotificationShape
    ensures ShapeOf(NewResponse<P, R>(id, result)) == if result.Some? then ResultShape else Malformed
    ensures ShapeOf(NewErrorMessage<P, R>(id, err)) == if err.Some? then ErrorShape else Malformed
    ensures NewResponse<P, R>(id, result).id == NewErrorMessage<P, R>(id, err).id == NewRequest<P, R>(id, methodName, params).id == id
    ensures NewNotification<P, R>(methodName, params).id == ""
  {
  }

  // ---------------------------------------------------------------------------
  // Initialization
  // ---------------------------------------------------------------------------

  predicate IsCompatibleProtocolVersion(clientVersion: string) {
    clientVersion == ProtocolVersion
  }

  datatype ClientInfo = ClientInfo(name: string, version: string)
  datatype ServerInfo = ServerInfo(name: string, version: string)

  /** InitializeRequest; the client's capabilities are not read and are not modelled. */
  datatype InitializeRequest = InitializeRequest(protocolVersion: string, clientInfo: ClientInfo)

  function ValidateInitializeRequest(req: Option<InitializeRequest>): Option<McpError> {
    match req
    case None => Some(NewInvalidRequestError(TextData("Initialize request cannot be nil")))
    case Some(r) =>
      if r.protocolVersion == "" then Some(NewInvalidParamsError(TextData("Protocol version is required")))
      else if !IsCompatibleProtocolVersion(r.protocolVersion) then
        Some(NewUnsupportedProtocolError(r.protocolVersion, ProtocolVersion))
      else if r.clientInfo.name == "" then Some(NewInvalidParamsError(TextData("Client name is required")))
      else if r.clientInfo.version == "" then Some(NewInvalidParamsError(TextData("Client version is required")))
      else None
  }

  /** Only the exact version is compatible; in particular the empty one is not. */
  lemma CompatibleIsExact(v: string)
    ensures IsCompatibleProtocolVersion(v) <==> v == "2024-11-05"
    ensures !IsCompatibleProtocolVersion("")
  {
  }

  /**
   * A request is accepted exactly when it is present, carries the server's
   * version and names the client with a name and a version; the checks
   * happen in that order, so each failure is the first one that applies.
   */
  lemma ValidateInitializeOrder(req: Option<InitializeRequest>)
    ensures ValidateInitializeRequest(req).None? <==>
            req.Some? && req.value.protocolVersion == ProtocolVersion &&
            req.value.clientInfo.name != "" && req.value.clientInfo.version != ""
    ensures req.None? ==> ValidateInitializeRequest(req).value.code == InvalidRequestCode
    ensures req.Some? && req.value.protocolVersion == "" ==>
            ValidateInitializeRequest(req) == Some(NewInvalidParamsError(TextData("Protocol version is required")))
    ensures req.Some? && req.value.protocolVersion != "" && req.value.protocolVersion != ProtocolVersion ==>
            ValidateInitializeRequest(req) == Some(NewUnsupportedProtocolError(req.value.protocolVersion, ProtocolVersion))
    ensures req.Some? && req.value.protocolVersion == ProtocolVersion && req.value.clientInfo.name == "" ==>
            ValidateInitializeRequest(req) == Some(NewInvalidParamsError(TextData("Client name is required")))
    ensures req.Some? && req.value.protocolVersion == ProtocolVersion && req.value.clientInfo.name != "" &&
            req.value.clientInfo.version == "" ==>
            ValidateInitializeRequest(req) == Some(NewInvalidParamsError(TextData("Client version is required")))
  {
  }

  // ---------------------------------------------------------------------------
  // Tools and content
  // ---------------------------------------------------------------------------

  /** The schema of a tool's input is opaque JSON, named by its raw text. */
  datatype Tool = Tool(name: string, description: string, inputSchema: string)

  datatype ContentBlock = ContentBlock(kind: string, text: string)

  /** CallToolResponse; `isError` is the optional `*bool`. */
  datatype CallToolResponse = CallToolResponse(content: seq<ContentBlock>, isError: Option<bool>)

  function NewTextContent(text: string): ContentBlock {
    ContentBlock("text", text)
  }

  function NewErrorResponse(text: string): CallToolResponse {
    CallToolResponse([NewTextContent(text)], Some(true))
  }

  function NewSuccessResponse(text: string): CallToolResponse {
    CallToolResponse([NewTextContent(text)], None)
  }

  /** The single text a response carries, if it carries exactly one text block. */
  function SingleText(r: CallToolResponse): Option<string> {
    if |r.content| == 1 && r.content[0].kind == "text" then Some(r.content[0].text) else None
  }

  /** Whether a client reads the response as a failure: isError present and true. */
  predicate ReportsError(r: CallToolResponse) {
    r.isError == Some(true)
  }

  /**
   * Both helpers carry their text as the one text block; the error response
   * is read as a failure, the success response omits isError and is not.
   */
  lemma ResponseHelpers(text: string)
    ensures SingleText(NewErrorResponse(text)) == Some(text) && ReportsError(NewErrorResponse(text))
    ensures SingleText(NewSuccessResponse(text)) == Some(text) && !ReportsError(NewSuccessResponse(text))
    ensures NewSuccessResponse(text).isError.None?
    ensures NewTextContent(text).kind == "text" && NewTextContent(text).text == text
  {
  }

  // ---------------------------------------------------------------------------
  // Requests, responses and the server interface
  // ---------------------------------------------------------------------------

  /** ToolsCapability; `listChanged` is the optional `*bool`. */
  datatype ToolsCapability = ToolsCapability(listChanged: Option<bool>)

  /** InitializeResponse; of the capabilities only the tools one is ever set. */
  datatype InitializeResponse = InitializeResponse(protocolVersion: string, tools: Option<ToolsCapability>, serverInfo: ServerInfo)

  /** CallToolRequest; the arguments are raw JSON text, empty when absent. */
  datatype CallToolRequest = CallToolRequest(name: string, arguments: string)

  /**
   * A Go error as the transports see it: its text, and the *Error that
   * errors.As finds in its chain, if any.
   */
  datatype Failure = Failure(text: string, mcp: Option<McpError>)

  /** An *Error returned as an error: its text is its message. */
  function FromMcp(e: McpError): Failure {
    Failure(ErrorString(e), Some(e))
  }

  /** An error created with fmt.Errorf without %w, or errors.New. */
  function Plain(text: string): Failure {
    Failure(text, None)
  }

  /** fmt.Errorf(prefix + "%w", f): the text grows, the chain keeps f's *Error. */
  function Wrap(prefix: string, f: Failure): Failure {
    Failure(prefix + f.text, f.mcp)
  }

  /** errors.As: the *Error in the chain of a wrapped error is the inner one's. */
  lemma WrapKeepsChain(prefix: string, f: Failure, e: McpError)
    ensures Wrap(prefix, f).mcp == f.mcp
    ensures FromMcp(e).mcp == Some(e) && FromMcp(e).text == e.message
    ensures Plain(prefix).mcp.None?
    ensures Wrap(prefix, FromMcp(e)).mcp == Some(e) && Wrap(prefix, FromMcp(e)).text == prefix + e.message
  {
  }

  /**
   * The Server interface, as the four operations it offers; a nil error is
   * a None or an Ok. The request of tools/list and of shutdown is empty and
   * not passed.
   */
  datatype ServerModel = ServerModel(
    initialize: Option<InitializeRequest> -> Result<InitializeResponse, Failure>,
    listTools: () -> Result<seq<Tool>, Failure>,
    callTool: CallToolRequest -> Result<CallToolResponse, Failure>,
    shutdown: () -> Option<Failure>)
}
