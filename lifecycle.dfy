/**
 * TailscaleMCPServer: the object the serve command builds. New checks and
 * validates the configuration, creates the CLI client, the tool registry
 * and the default MCP server over it, then applies the functional options
 * in order, stopping at the first that fails. StartStdio and StartHTTP
 * refuse to start twice and clear the running flag when the transport
 * returns; Shutdown stops the MCP server and closes the registry.
 *
 * The lock is not modelled: each operation runs to completion alone. The
 * REST client is not part of this model, and creating the CLI client is
 * an oracle `cliError` (its error, if any).
 */
module Lifecycle {
  import opened Wrappers
  import opened McpTypes
  import opened Registry
  import opened McpServer
  import opened Dispatch
  import Stdio
  import HttpTransport
  import C = Config

  const ServerName := "tailscale-mcp-server"
  const ServerVersion := "0.1.0"

  /** The MCP server held: the default MCPServer built by New, or one an option injected. */
  datatype McpChoice = Default(server: MCPServer) | Custom(model: ServerModel)

  /** The two functional options; None stands for a nil argument. */
  datatype ServerOption =
    | WithCustomMCPServer(server: Option<ServerModel>)
    | WithCustomRegistry(registry: Option<ToolRegistry>)

  /** Why StartStdio or StartHTTP returned: it was already running, or the transport stopped. */
  datatype RunError = AlreadyRunning | Transport(stop: StopError)

  function RunErrorText(e: RunError): string {
    match e
    case AlreadyRunning => "server is already running"
    case Transport(Failed(text, _)) => text
    case Transport(ContextStopped(Canceled)) => "context canceled"
    case Transport(ContextStopped(DeadlineExceeded)) => "context deadline exceeded"
  }

  /** The error an option returns: only a nil argument is refused. */
  function OptionFailure(o: ServerOption): Option<string> {
    match o
    case WithCustomMCPServer(None) => Some("custom MCP server cannot be nil")
    case WithCustomRegistry(None) => Some("custom registry cannot be nil")
    case _ => None
  }

  /** The error of the first option that fails, if any. */
  function FirstFailure(opts: seq<ServerOption>): Option<string> {
    if |opts| == 0 then None
    else if FirstFailure(opts[..|opts| - 1]).Some? then FirstFailure(opts[..|opts| - 1])
    else OptionFailure(opts[|opts| - 1])
  }

  /** The MCP server the last non-nil WithCustomMCPServer injects, if any. */
  function LastServer(opts: seq<ServerOption>): Option<ServerModel> {
    if |opts| == 0 then None
    else match opts[|opts| - 1]
      case WithCustomMCPServer(Some(m)) => Some(m)
      case _ => LastServer(opts[..|opts| - 1])
  }

  /** The registry the last non-nil WithCustomRegistry injects, if any. */
  function LastRegistry(opts: seq<ServerOption>): Option<ToolRegistry> {
    if |opts| == 0 then None
    else match opts[|opts| - 1]
      case WithCustomRegistry(Some(r)) => Some(r)
      case _ => LastRegistry(opts[..|opts| - 1])
  }

  /**
   * The options fail exactly when one of them has a nil argument, and then
   * with the error of the earliest such option.
   */
  lemma {:induction false} FirstFailureIsEarliest(opts: seq<ServerOption>)
    ensures FirstFailure(opts).None? <==> forall i :: 0 <= i < |opts| ==> OptionFailure(opts[i]).None?
    ensures FirstFailure(opts).Some? ==>
            exists k :: 0 <= k < |opts| && FirstFailure(opts) == OptionFailure(opts[k]) &&
                        forall j :: 0 <= j < k ==> OptionFailure(opts[j]).None?
  {
    if |opts| > 0 {
      var front := opts[..|opts| - 1];
      FirstFailureIsEarliest(front);
      assert forall i :: 0 <= i < |front| ==> front[i] == opts[i];
      if FirstFailure(front).Some? {
        var k :| 0 <= k < |front| && FirstFailure(front) == OptionFailure(front[k]) &&
                 forall j :: 0 <= j < k ==> OptionFailure(front[j]).None?;
        assert OptionFailure(opts[k]).Some?;
      } else if OptionFailure(opts[|opts| - 1]).Some? {
        assert forall j :: 0 <= j < |opts| - 1 ==> OptionFailure(opts[j]).None?;
      }
    }
  }

  /** Once a prefix of the options fails, the options fail with its error, whatever follows. */
  lemma {:induction false} FirstFailureSticks(opts: seq<ServerOption>, n: nat)
    requires n <= |opts| && FirstFailure(opts[..n]).Some?
    ensures FirstFailure(opts) == FirstFailure(opts[..n])
    decreases |opts| - n
  {
    if n < |opts| {
      assert opts[..n + 1][..n] == opts[..n];
      FirstFailureSticks(opts, n + 1);
    } else {
      assert opts[..n] == opts;
    }
  }

  /** The injected registry is the argument of one of the registry options. */
  lemma {:induction false} LastRegistryInjected(opts: seq<ServerOption>)
    ensures LastRegistry(opts).Some? ==>
            exists i :: 0 <= i < |opts| && opts[i].WithCustomRegistry? && opts[i].registry == LastRegistry(opts)
  {
    if |opts| > 0 && !(opts[|opts| - 1].WithCustomRegistry? && opts[|opts| - 1].registry.Some?) {
      var front := opts[..|opts| - 1];
      LastRegistryInjected(front);
      if LastRegistry(front).Some? {
        var i :| 0 <= i < |front| && front[i].WithCustomRegistry? && front[i].registry == LastRegistry(front);
        assert opts[i] == front[i];
      }
    }
  }

  /**
   * The last non-nil option of each kind wins, and the two kinds do not
   * interfere: without a WithCustomMCPServer the default server stays,
   * whatever registries are injected.
   */
  lemma {:induction false} LastOptionWins(opts: seq<ServerOption>, k: nat)
    ensures (forall i :: 0 <= i < |opts| ==> !opts[i].WithCustomMCPServer?) ==> LastServer(opts).None?
    ensures (forall i :: 0 <= i < |opts| ==> !opts[i].WithCustomRegistry?) ==> LastRegistry(opts).None?
    ensures k < |opts| && opts[k].WithCustomMCPServer? && opts[k].server.Some? &&
            (forall i :: k < i < |opts| ==> !opts[i].WithCustomMCPServer?) ==>
            LastServer(opts) == opts[k].server
    ensures k < |opts| && opts[k].WithCustomRegistry? && opts[k].registry.Some? &&
            (forall i :: k < i < |opts| ==> !opts[i].WithCustomRegistry?) ==>
            LastRegistry(opts) == opts[k].registry
  {
    if |opts| > 0 {
      var front := opts[..|opts| - 1];
      assert forall i :: 0 <= i < |front| ==> front[i] == opts[i];
      LastOptionWins(front, k);
    }
  }

  class TailscaleMCPServer {
    var config: C.Config
    var registry: ToolRegistry
    var mcpServer: McpChoice
    var running: bool

    /** The registry the default MCP server lists and calls, if the default is held. */
    function ServedRegistry(): set<object>
      reads this
    {
      if mcpServer.Default? then {mcpServer.server.registry} else {}
    }

    ghost predicate Valid()
      reads this, registry, ServedRegistry()
    {
      registry.Valid() && (mcpServer.Default? ==> mcpServer.server.registry.Valid())
    }

    constructor (config: C.Config, registry: ToolRegistry, mcpServer: McpChoice)
      ensures this.config == config && this.registry == registry && this.mcpServer == mcpServer && !running
    {
      this.config := config;
      this.registry := registry;
      this.mcpServer := mcpServer;
      running := false;
    }

    /** The held MCP server as the transports see it. */
    function Served(exec: Executor, listing: seq<Tool>): ServerModel
      reads this, ServedRegistry()
    {
      match mcpServer
      case Default(m) => AsServerModel(m.name, m.version, m.registry.tools, exec, listing)
      case Custom(model) => model
    }

    /** What the held MCP server's Shutdown returns. */
    function ShutdownFailure(): Option<Failure>
      reads this
    {
      match mcpServer
      case Default(_) => None
      case Custom(model) => model.shutdown()
    }

    /** One functional option: a nil argument is refused and changes nothing. */
    method ApplyOption(o: ServerOption) returns (err: Option<string>)
      modifies this
      ensures err == OptionFailure(o)
      ensures config == old(config) && running == old(running)
      ensures mcpServer == (if o.WithCustomMCPServer? && o.server.Some? then Custom(o.server.value) else old(mcpServer))
      ensures registry == (if o.WithCustomRegistry? && o.registry.Some? then o.registry.value else old(registry))
    {
      match o
      case WithCustomMCPServer(server) =>
        if server.None? {
          return Some("custom MCP server cannot be nil");
        }
        mcpServer := Custom(server.value);
        err := None;
      case WithCustomRegistry(r) =>
        if r.None? {
          return Some("custom registry cannot be nil");
        }
        registry := r.value;
        err := None;
    }

    /** The options in order, up to the first that fails. */
    method ApplyOptions(opts: seq<ServerOption>) returns (err: Option<string>)
      modifies this
      ensures err == FirstFailure(opts)
      ensures config == old(config) && running == old(running)
      ensures err.None? ==> mcpServer == (if LastServer(opts).Some? then Custom(LastServer(opts).value) else old(mcpServer))
      ensures err.None? ==> registry == (if LastRegistry(opts).Some? then LastRegistry(opts).value else old(registry))
    {
      err := None;
      var i := 0;
      while i < |opts| && err.None?
        invariant 0 <= i <= |opts|
        invariant err == FirstFailure(opts[..i])
        invariant config == old(config) && running == old(running)
        invariant err.None? ==> mcpServer == (if LastServer(opts[..i]).Some? then Custom(LastServer(opts[..i]).value) else old(mcpServer))
        invariant err.None? ==> registry == (if LastRegistry(opts[..i]).Some? then LastRegistry(opts[..i]).value else old(registry))
      {
        assert opts[..i + 1][..i] == opts[..i];
        assert opts[..i + 1][i] == opts[i];
        err := ApplyOption(opts[i]);
        i := i + 1;
      }
      if err.Some? {
        FirstFailureSticks(opts, i);
      } else {
        assert opts[..|opts|] == opts;
      }
    }

    /**
     * StartStdio: refused while running; otherwise the stdio loop runs over
     * the held MCP server and the flag is cleared when it returns, so the
     * flag ends as it started. `written` is what the loop wrote to
     * standard output.
     */
    method StartStdio(input: Stdio.Input, parse: string -> Envelope, sink: Stdio.Sink, exec: Executor, listing: seq<Tool>)
      returns (err: Option<RunError>, written: seq<string>)
      requires mcpServer.Default? ==> ListsTools(mcpServer.server.registry.tools, listing)
      modifies this
      ensures running == old(running) && config == old(config) && registry == old(registry) && mcpServer == old(mcpServer)
      ensures old(running) ==> err == Some(AlreadyRunning) && written == []
      ensures !old(running) ==>
              err == (match Stdio.StartResult(input) case None => None case Some(e) => Some(Transport(e))) &&
              written == Stdio.Frames(Stdio.Replies(input.lines[..Stdio.Processed(input)], parse, Served(exec, listing)), sink, 0)
    {
      if running {
        return Some(AlreadyRunning), [];
      }
      running := true;
      var server := new Stdio.StdioServer(Served(exec, listing));
      var stop := server.Start(input, parse, sink);
      written := server.out;
      running := false;
      err := match stop case None => None case Some(e) => Some(Transport(e));
    }

    /**
     * StartHTTP: refused while running; otherwise the HTTP server runs over
     * the held MCP server until it stops, which always returns an error,
     * and the flag is cleared. The port is only the listen address.
     */
    method StartHTTP(stop: HttpTransport.HttpStop, port: int) returns (err: Option<RunError>)
      modifies this
      ensures running == old(running) && config == old(config) && registry == old(registry) && mcpServer == old(mcpServer)
      ensures old(running) ==> err == Some(AlreadyRunning)
      ensures !old(running) ==> err == Some(Transport(HttpTransport.StartResult(stop)))
    {
      if running {
        return Some(AlreadyRunning);
      }
      running := true;
      var e := HttpTransport.StartResult(stop);
      running := false;
      err := Some(Transport(e));
    }

    /**
     * Shutdown: nothing to do unless running; a failing MCP server
     * shutdown is wrapped and leaves the server running with its tools;
     * otherwise the registry is emptied and the flag cleared. The
     * registry's Close never fails, so its error branch is never taken.
     */
    method Shutdown() returns (err: Option<string>)
      requires Valid()
      modifies this, registry
      ensures Valid()
      ensures registry == old(registry) && config == old(config) && mcpServer == old(mcpServer)
      ensures !old(running) ==> err.None? && !running && registry.tools == old(registry.tools)
      ensures old(running) && ShutdownFailure().Some? ==>
              err == Some("failed to shutdown MCP server: " + ShutdownFailure().value.text) &&
              running && registry.tools == old(registry.tools)
      ensures old(running) && ShutdownFailure().None? ==> err.None? && !running && registry.tools == map[]
    {
      if !running {
        return None;
      }
      var failure: Option<Failure>;
      match mcpServer {
        case Default(m) =>
          failure := m.Shutdown();
        case Custom(model) =>
          failure := model.shutdown();
      }
      if failure.Some? {
        return Some("failed to shutdown MCP server: " + failure.value.text);
      }
      var closeErr := registry.Close();
      running := false;
      err := None;
    }

    function IsRunning(): bool
      reads this
    {
      running
    }

    /** Config: the configuration, as a value no caller can change. */
    function ConfigCopy(): C.Config
      reads this
    {
      config
    }

    /** ToolCount: the number of tools in the held registry. */
    function ToolCount(): (r: nat)
      reads this, registry
      ensures r == |registry.tools.Keys|
    {
      registry.Count()
    }
  }

  /**
   * New: a nil configuration, a configuration that fails validation (with
   * every problem in the message), a CLI client that cannot be created, and
   * the first failing option are errors, checked in that order. Otherwise
   * the server is not running, holds the configuration, the last injected
   * MCP server or a fresh default one named tailscale-mcp-server 0.1.0 over
   * a fresh registry of the built-in tools, and the last injected registry
   * or that fresh one. An injected registry is not the one the default MCP
   * server serves.
   */
  method New(cfg: Option<C.Config>, urlParses: string -> bool, isDir: string -> bool, cliError: Option<string>, opts: seq<ServerOption>)
    returns (r: Result<TailscaleMCPServer, string>)
    requires forall i :: 0 <= i < |opts| && opts[i].WithCustomRegistry? && opts[i].registry.Some? ==> opts[i].registry.value.Valid()
    ensures cfg.None? ==> r == Err("configuration must not be nil")
    ensures cfg.Some? && C.Problems(cfg.value, urlParses, isDir) != [] ==>
            r == Err("invalid configuration: " + C.MultiErrorText(C.Problems(cfg.value, urlParses, isDir)))
    ensures cfg.Some? && C.Problems(cfg.value, urlParses, isDir) == [] && cliError.Some? ==>
            r == Err("failed to create tailscale cli: " + cliError.value)
    ensures cfg.Some? && C.Problems(cfg.value, urlParses, isDir) == [] && cliError.None? && FirstFailure(opts).Some? ==>
            r == Err("failed to apply server option: " + FirstFailure(opts).value)
    ensures cfg.Some? && C.Problems(cfg.value, urlParses, isDir) == [] && cliError.None? && FirstFailure(opts).None? ==>
            r.Ok? && fresh(r.value) && r.value.Valid() && !r.value.running && r.value.config == cfg.value &&
            (LastServer(opts).Some? ==> r.value.mcpServer == Custom(LastServer(opts).value)) &&
            (LastServer(opts).None? ==>
               r.value.mcpServer.Default? && fresh(r.value.mcpServer.server) &&
               r.value.mcpServer.server.name == ServerName && r.value.mcpServer.server.version == ServerVersion &&
               fresh(r.value.mcpServer.server.registry) &&
               r.value.mcpServer.server.registry.tools == map["list_devices" := ListDevices] &&
               (LastRegistry(opts).None? ==> r.value.registry == r.value.mcpServer.server.registry) &&
               (LastRegistry(opts).Some? ==> r.value.registry != r.value.mcpServer.server.registry)) &&
            (LastRegistry(opts).Some? ==> r.value.registry == LastRegistry(opts).value)
  {
    if cfg.None? {
      return Err("configuration must not be nil");
    }
    var problems := C.Validate(cfg.value, urlParses, isDir);
    if problems.Some? {
      var text := C.MultiError(problems.value);
      return Err("invalid configuration: " + text);
    }
    if cliError.Some? {
      return Err("failed to create tailscale cli: " + cliError.value);
    }
    var registry := new ToolRegistry();
    var mcp := new MCPServer(registry, ServerName, ServerVersion);
    var server := new TailscaleMCPServer(cfg.value, registry, Default(mcp));
    var err := server.ApplyOptions(opts);
    if err.Some? {
      return Err("failed to apply server option: " + err.value);
    }
    LastRegistryInjected(opts);
    r := Ok(server);
  }
}
