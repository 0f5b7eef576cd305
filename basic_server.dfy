/**
 * The public MCP package: its response helpers and protocol constants, and
 * its two example servers. BasicServer keeps its tools in a slice that
 * registration appends to, duplicates and all, and answers a tools/call
 * with a fixed text when some tool has the name; AdvancedServer adds a map
 * of handlers, the last one registered under a name winning, and answers
 * with the handler's response.
 *
 * Neither CallTool ever returns a Go error, so they return the response
 * alone. The initialize validator the package calls is not defined in the
 * package; it is the oracle `validate`, giving the validation error's
 * text if there is one.
 */
module PkgMcp {
  import opened Wrappers

  const ProtocolVersion := "2024-11-05"
  const RequestTypeInitialize := "initialize"
  const RequestTypeListTools := "tools/list"
  const RequestTypeCallTool := "tools/call"
  const RequestTypeShutdown := "shutdown"
  const ResponseTypeInitialized := "initialized"
  const ResponseTypeResult := "result"
  const ResponseTypeError := "error"

  datatype ContentBlock = ContentBlock(kind: string, text: string)

  /** A tools/call response; isError None is a nil `*bool`. */
  datatype CallToolResponse = CallToolResponse(content: seq<ContentBlock>, isError: Option<bool>)

  datatype Tool = Tool(name: string, description: string, inputSchema: string)

  datatype ClientInfo = ClientInfo(name: string, version: string)
  datatype ServerInfo = ServerInfo(name: string, version: string)
  datatype InitializeRequest = InitializeRequest(protocolVersion: string, clientInfo: ClientInfo)
  datatype ToolsCapability = ToolsCapability(listChanged: Option<bool>)
  datatype InitializeResponse = InitializeResponse(protocolVersion: string, tools: Option<ToolsCapability>, serverInfo: ServerInfo)

  function NewTextContent(text: string): ContentBlock {
    ContentBlock("text", text)
  }

  function NewErrorResponse(text: string): CallToolResponse {
    CallToolResponse([NewTextContent(text)], Some(true))
  }

  function NewSuccessResponse(text: string): CallToolResponse {
    CallToolResponse([NewTextContent(text)], None)
  }

  /** The text of a response made of one text block, if it is one. */
  function SingleText(r: CallToolResponse): Option<string> {
    if |r.content| == 1 && r.content[0].kind == "text" then Some(r.content[0].text) else None
  }

  /**
   * Both helpers make one text block carrying the text back; only the
   * error response sets isError, so the two never coincide.
   */
  lemma ResponseHelpers(text: string, other: string)
    ensures SingleText(NewErrorResponse(text)) == Some(text) && SingleText(NewSuccessResponse(text)) == Some(text)
    ensures NewErrorResponse(text).isError == Some(true) && NewSuccessResponse(text).isError.None?
    ensures NewErrorResponse(text) != NewSuccessResponse(other)
    ensures NewErrorResponse(text) == NewErrorResponse(other) <==> text == other
    ensures NewTextContent(text).kind == "text" && NewTextContent(text).text == text
  {
  }

  /** The index of the first tool with the name, if there is one. */
  function FirstNamed(tools: seq<Tool>, name: string): (r: Option<nat>)
    ensures r.Some? ==> r.value < |tools| && tools[r.value].name == name &&
                        forall j :: 0 <= j < r.value ==> tools[j].name != name
    ensures r.None? ==> forall j :: 0 <= j < |tools| ==> tools[j].name != name
  {
    if |tools| == 0 then None
    else if tools[0].name == name then Some(0)
    else match FirstNamed(tools[1..], name)
      case None => None
      case Some(i) => Some(i + 1)
  }

  /** BasicServer.CallTool's answer for a tool list. */
  function BasicCallResult(tools: seq<Tool>, name: string): CallToolResponse {
    if FirstNamed(tools, name).Some? then NewSuccessResponse("Tool '" + name + "' called successfully (basic implementation)")
    else NewErrorResponse("Tool '" + name + "' not found")
  }

  /**
   * BasicServer.CallTool answers with an error response exactly when no
   * tool has the name; registering a tool makes its name succeed and
   * leaves the answer for every other name as it was.
   */
  lemma BasicCallOutcomes(tools: seq<Tool>, t: Tool, name: string)
    ensures BasicCallResult(tools, name).isError == Some(true) <==> forall j :: 0 <= j < |tools| ==> tools[j].name != name
    ensures BasicCallResult(tools + [t], t.name) == NewSuccessResponse("Tool '" + t.name + "' called successfully (basic implementation)")
    ensures name != t.name ==> BasicCallResult(tools + [t], name) == BasicCallResult(tools, name)
  {
    var grown := tools + [t];
    assert grown[|tools|].name == t.name;
    if name != t.name {
      assert forall j :: 0 <= j < |tools| ==> grown[j] == tools[j];
      if FirstNamed(tools, name).Some? {
        assert grown[FirstNamed(tools, name).value].name == name;
      }
    }
  }

  /** What the public Server interface's initialize gives for a server identity. */
  function InitializeResult(info: ServerInfo, req: Option<InitializeRequest>, validate: Option<InitializeRequest> -> Option<string>): Result<InitializeResponse, string> {
    match validate(req)
    case Some(e) => Err("initialization failed: " + e)
    case None => Ok(InitializeResponse(ProtocolVersion, Some(ToolsCapability(Some(true))), info))
  }

  /**
   * Initialize fails exactly when the validator does, with its message
   * after "initialization failed: "; otherwise it names the server, the
   * fixed protocol version, and a tool list that can change.
   */
  lemma InitializeOutcomes(info: ServerInfo, req: Option<InitializeRequest>, validate: Option<InitializeRequest> -> Option<string>)
    ensures InitializeResult(info, req, validate).Err? <==> validate(req).Some?
    ensures validate(req).Some? ==> InitializeResult(info, req, validate).error == "initialization failed: " + validate(req).value
    ensures validate(req).None? ==>
            InitializeResult(info, req, validate).value.protocolVersion == "2024-11-05" &&
            InitializeResult(info, req, validate).value.serverInfo == info &&
            InitializeResult(info, req, validate).value.tools == Some(ToolsCapability(Some(true)))
  {
  }

  class BasicServer {
    const serverInfo: ServerInfo
    var tools: seq<Tool>

    /** NewBasicServer: the given identity and no tools. */
    constructor (name: string, version: string)
      ensures serverInfo == ServerInfo(name, version) && tools == []
    {
      serverInfo := ServerInfo(name, version);
      tools := [];
    }

    /** RegisterTool: append, keeping earlier tools of the same name. */
    method RegisterTool(tool: Tool)
      modifies this
      ensures tools == old(tools) + [tool]
    {
      tools := tools + [tool];
    }

    function Initialize(req: Option<InitializeRequest>, validate: Option<InitializeRequest> -> Option<string>): Result<InitializeResponse, string>
      reads this
    {
      InitializeResult(serverInfo, req, validate)
    }

    /** ListTools: the registered tools, in registration order. */
    function ListTools(): seq<Tool>
      reads this
    {
      tools
    }

    /** CallTool: a search for the first tool with the name, then the fixed answer. */
    method CallTool(name: string) returns (r: CallToolResponse)
      ensures r == BasicCallResult(tools, name)
    {
      var found: Option<nat> := None;
      var i := 0;
      while i < |tools|
        invariant 0 <= i <= |tools|
        invariant found.None? ==> forall j :: 0 <= j < i ==> tools[j].name != name
        invariant found.Some? ==> found == FirstNamed(tools, name)
      {
        if tools[i].name == name {
          found := Some(i);
          break;
        }
        i := i + 1;
      }
      if found.None? {
        return NewErrorResponse("Tool '" + name + "' not found");
      }
      r := NewSuccessResponse("Tool '" + name + "' called successfully (basic implementation)");
    }

    function Shutdown(): Option<string>
      reads this
    {
      None
    }
  }

  /**
   * A tool handler: for the call's raw arguments, a response (None for a
   * nil one) or an error's text; a response returned beside an error is
   * ignored, so it is not kept.
   */
  type ToolHandler = string -> Result<Option<CallToolResponse>, string>

  /** AdvancedServer.CallTool for a handler map; None is the nil response a handler may return. */
  function AdvancedCallResult(handlers: map<string, ToolHandler>, name: string, args: string): Option<CallToolResponse> {
    if name !in handlers then Some(NewErrorResponse("Tool '" + name + "' not found"))
    else match handlers[name](args)
      case Err(e) => Some(NewErrorResponse("Tool execution failed: " + e))
      case Ok(response) => response
  }

  /**
   * AdvancedServer.CallTool: an unknown name and a failing handler both
   * give error responses; a handler's own response passes through
   * unchanged, a nil one included, so only a handler can make the answer
   * nil; the handler registered last under a name is the one run,
   * and registering under one name changes no other name's answer.
   */
  lemma AdvancedCallOutcomes(handlers: map<string, ToolHandler>, name: string, args: string, h: ToolHandler, g: ToolHandler, other: string)
    ensures name !in handlers ==> AdvancedCallResult(handlers, name, args) == Some(NewErrorResponse("Tool '" + name + "' not found"))
    ensures name in handlers && handlers[name](args).Err? ==>
            AdvancedCallResult(handlers, name, args) == Some(NewErrorResponse("Tool execution failed: " + handlers[name](args).error))
    ensures name in handlers && handlers[name](args).Ok? ==> AdvancedCallResult(handlers, name, args) == handlers[name](args).value
    ensures AdvancedCallResult(handlers, name, args).None? <==> name in handlers && handlers[name](args) == Ok(None)
    ensures AdvancedCallResult(handlers[name := g][name := h], name, args) == AdvancedCallResult(map[name := h], name, args)
    ensures other != name ==> AdvancedCallResult(handlers[name := h], other, args) == AdvancedCallResult(handlers, other, args)
  {
  }

  class AdvancedServer {
    const basic: BasicServer
    var toolHandlers: map<string, ToolHandler>

    /** NewAdvancedServer: a new basic server and no handlers. */
    constructor (name: string, version: string)
      ensures fresh(basic) && basic.serverInfo == ServerInfo(name, version) && basic.tools == [] && toolHandlers == map[]
    {
      basic := new BasicServer(name, version);
      toolHandlers := map[];
    }

    /**
     * RegisterToolWithHandler: the tool is appended to the basic server's
     * list and the handler filed under its name, replacing any earlier one.
     */
    method RegisterToolWithHandler(tool: Tool, handler: ToolHandler)
      modifies this, basic
      ensures basic.tools == old(basic.tools) + [tool]
      ensures toolHandlers == old(toolHandlers)[tool.name := handler]
    {
      basic.RegisterTool(tool);
      toolHandlers := toolHandlers[tool.name := handler];
    }

    function CallTool(name: string, args: string): Option<CallToolResponse>
      reads this
    {
      AdvancedCallResult(toolHandlers, name, args)
    }
  }

  /**
   * Registering the same tool twice with two handlers lists it twice but
   * calls only the second handler.
   */
  method RegisterTwice(s: AdvancedServer, t: Tool, first: ToolHandler, second: ToolHandler, args: string)
    modifies s, s.basic
    ensures s.basic.tools == old(s.basic.tools) + [t, t]
    ensures s.CallTool(t.name, args) == AdvancedCallResult(map[t.name := second], t.name, args)
  {
    s.RegisterToolWithHandler(t, first);
    s.RegisterToolWithHandler(t, second);
    AdvancedCallOutcomes(old(s.toolHandlers), t.name, args, second, first, t.name);
  }
}
