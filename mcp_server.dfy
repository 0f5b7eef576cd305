/**
 * MCPServer: the Server interface implemented over the tool registry.
 * Initialize validates and names the server; ListTools describes every
 * registered tool; CallTool looks the tool up and runs it, turning the
 * registry's outcomes into protocol errors; Shutdown does nothing.
 */
module McpServer {
  import opened Wrappers
  import opened McpTypes
  import opened Registry

  /** The initialize outcome: the validator's error unchanged, or the server's identity. */
  function InitializeResult(name: string, version: string, req: Option<InitializeRequest>): Result<InitializeResponse, Failure> {
    match ValidateInitializeRequest(req)
    case Some(e) => Err(FromMcp(e))
    case None => Ok(InitializeResponse(ProtocolVersion, Some(ToolsCapability(None)), ServerInfo(name, version)))
  }

  /** The protocol description of a registered tool. */
  function Describe(t: ToolImpl): Tool {
    Tool(t.name, t.description, t.inputSchema)
  }

  /** `list` describes every tool of the map exactly once, in some order. */
  ghost predicate ListsTools(tools: map<string, ToolImpl>, list: seq<Tool>) {
    |list| == |tools.Keys| &&
    (forall i :: 0 <= i < |list| ==> list[i].name in tools && list[i] == Describe(tools[list[i].name])) &&
    (forall n :: n in tools ==> exists i :: 0 <= i < |list| && list[i].name == n) &&
    (forall i, j :: 0 <= i < j < |list| ==> list[i].name != list[j].name)
  }

  /** `list` describes the tools named in `done` exactly once each. */
  ghost predicate ListsSome(tools: map<string, ToolImpl>, done: set<string>, list: seq<Tool>) {
    done <= tools.Keys &&
    (forall i :: 0 <= i < |list| ==> list[i].name in done && list[i] == Describe(tools[list[i].name])) &&
    (forall n :: n in done ==> exists i :: 0 <= i < |list| && list[i].name == n) &&
    (forall i, j :: 0 <= i < j < |list| ==> list[i].name != list[j].name)
  }

  /** Describing one more tool, filed under its own name, extends the listing by that name. */
  lemma ListsSomeStep(tools: map<string, ToolImpl>, done: set<string>, list: seq<Tool>, n: string)
    requires ListsSome(tools, done, list) && n in tools && n !in done && tools[n].name == n
    ensures ListsSome(tools, done + {n}, list + [Describe(tools[n])])
  {
    var grown := list + [Describe(tools[n])];
    assert grown[|list|].name == n;
    forall m | m in done + {n}
      ensures exists i :: 0 <= i < |grown| && grown[i].name == m
    {
      if m != n {
        var i :| 0 <= i < |list| && list[i].name == m;
        assert grown[i].name == m;
      }
    }
    forall i, j | 0 <= i < j < |grown| ensures grown[i].name != grown[j].name {
      if j == |list| {
        assert list[i].name in done;
      }
    }
  }

  /** The tools/call outcome on a snapshot of the registry. */
  function CallToolResult(tools: map<string, ToolImpl>, exec: Executor, req: CallToolRequest): Result<CallToolResponse, Failure> {
    match Lookup(tools, req.name)
    case None => Err(FromMcp(NewToolNotFoundError(req.name)))
    case Some(t) =>
      match exec(t, req.arguments)
      case Err(f) => Err(FromMcp(NewToolExecutionError(req.name, f.text)))
      case Ok(result) => Ok(CallToolResponse([NewTextContent(result)], None))
  }

  /**
   * The server as the transports use it, given the registry's map, the tools'
   * Execute and the listing the map's iteration produced.
   */
  function AsServerModel(name: string, version: string, tools: map<string, ToolImpl>, exec: Executor, listing: seq<Tool>): (s: ServerModel)
    ensures forall req :: s.initialize(req) == InitializeResult(name, version, req)
    ensures s.listTools() == Ok(listing)
    ensures forall req :: s.callTool(req) == CallToolResult(tools, exec, req)
    ensures s.shutdown() == None
  {
    ServerModel(
      req => InitializeResult(name, version, req),
      () => Ok(listing),
      req => CallToolResult(tools, exec, req),
      () => None)
  }

  /**
   * Initialize: a refused request fails with exactly the validator's *Error
   * (so errors.As finds it); an accepted one gets the fixed protocol version,
   * the configured name and version, and a tools capability with no
   * listChanged flag.
   */
  lemma InitializeOutcomes(name: string, version: string, req: Option<InitializeRequest>)
    ensures ValidateInitializeRequest(req).Some? ==>
            InitializeResult(name, version, req) == Err(Failure(ValidateInitializeRequest(req).value.message, ValidateInitializeRequest(req)))
    ensures InitializeResult(name, version, req).Ok? <==>
            req.Some? && req.value.protocolVersion == ProtocolVersion && req.value.clientInfo.name != "" && req.value.clientInfo.version != ""
    ensures InitializeResult(name, version, req).Ok? ==>
            InitializeResult(name, version, req).value.protocolVersion == "2024-11-05" &&
            InitializeResult(name, version, req).value.serverInfo == ServerInfo(name, version) &&
            InitializeResult(name, version, req).value.tools == Some(ToolsCapability(None))
  {
    ValidateInitializeOrder(req);
  }

  /**
   * CallTool: an unknown tool is a ToolNotFound error naming it; a tool's
   * error becomes a ToolExecution error naming the tool and keeping the
   * error's text; a result becomes one text block, without isError.
   */
  lemma CallToolOutcomes(tools: map<string, ToolImpl>, exec: Executor, req: CallToolRequest)
    ensures req.name !in tools ==> CallToolResult(tools, exec, req) == Err(FromMcp(NewToolNotFoundError(req.name)))
    ensures req.name in tools && exec(tools[req.name], req.arguments).Err? ==>
            CallToolResult(tools, exec, req).Err? &&
            CallToolResult(tools, exec, req).error.mcp.value.code == ToolExecutionErrorCode &&
            CallToolResult(tools, exec, req).error.mcp.value.data.fields["tool"] == req.name &&
            CallToolResult(tools, exec, req).error.mcp.value.data.fields["error"] == exec(tools[req.name], req.arguments).error.text
    ensures CallToolResult(tools, exec, req).Ok? <==> req.name in tools && exec(tools[req.name], req.arguments).Ok?
    ensures CallToolResult(tools, exec, req).Ok? ==>
            SingleText(CallToolResult(tools, exec, req).value) == Some(exec(tools[req.name], req.arguments).value) &&
            CallToolResult(tools, exec, req).value.isError.None?
    ensures CallToolResult(tools, exec, req).Err? ==> CallToolResult(tools, exec, req).error.mcp.Some?
  {
  }

  class MCPServer {
    const registry: ToolRegistry
    const name: string
    const version: string

    /** NewMCPServer. */
    constructor (registry: ToolRegistry, name: string, version: string)
      ensures this.registry == registry && this.name == name && this.version == version
    {
      this.registry := registry;
      this.name := name;
      this.version := version;
    }

    method Initialize(req: Option<InitializeRequest>) returns (r: Result<InitializeResponse, Failure>)
      ensures r == InitializeResult(name, version, req)
    {
      var err := ValidateInitializeRequest(req);
      if err.Some? {
        return Err(FromMcp(err.value));
      }
      r := Ok(InitializeResponse(ProtocolVersion, Some(ToolsCapability(None)), ServerInfo(name, version)));
    }

    /**
     * ListTools: one description per registered tool, built by a loop over
     * the registry's copy; an empty registry gives an empty list, never an
     * error.
     */
    method ListTools() returns (r: Result<seq<Tool>, Failure>)
      requires registry.Valid()
      ensures r.Ok? && ListsTools(registry.tools, r.value)
    {
      var registered := registry.GetTools();
      var list: seq<Tool> := [];
      var rest := registered.Keys;
      while rest != {}
        invariant rest <= registered.Keys
        invariant |list| + |rest| == |registered.Keys|
        invariant ListsSome(registered, registered.Keys - rest, list)
        decreases |rest|
      {
        var n :| n in rest;
        // The entry is filed under its own name.
        assert registered[n].name == n;
        ListsSomeStep(registered, registered.Keys - rest, list, n);
        list := list + [Describe(registered[n])];
        assert registered.Keys - rest + {n} == registered.Keys - (rest - {n});
        rest := rest - {n};
      }
      assert registered.Keys - rest == registry.tools.Keys;
      r := Ok(list);
    }

    method CallTool(req: CallToolRequest, exec: Executor) returns (r: Result<CallToolResponse, Failure>)
      requires registry.Valid()
      ensures r == CallToolResult(registry.tools, exec, req)
    {
      var tool := registry.GetTool(req.name);
      if tool.None? {
        return Err(FromMcp(NewToolNotFoundError(req.name)));
      }
      var result := exec(tool.value, req.arguments);
      if result.Err? {
        return Err(FromMcp(NewToolExecutionError(req.name, result.error.text)));
      }
      r := Ok(CallToolResponse([NewTextContent(result.value)], None));
    }

    /** Shutdown: always nil. */
    method Shutdown() returns (err: Option<Failure>)
      ensures err.None?
    {
      err := None;
    }
  }
}
