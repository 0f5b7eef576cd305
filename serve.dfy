/**
 * The serve command: the flag checks run before it, then the run itself —
 * load the configuration, initialize the logger (debug under --verbose),
 * build the server, start the transport the --mode flag names, and exit 0
 * on a graceful or clean stop and 1 on anything else.
 *
 * Signals are the transports' cancellation; a failed flag check exits 1
 * through the root command.
 */
module Serve {
  import opened Wrappers
  import opened McpTypes
  import opened Registry
  import opened Dispatch
  import McpServer
  import Stdio
  import HttpTransport
  import C = Config
  import Logging
  import opened L = Lifecycle

  /** PreRunE: the mode must be stdio or http; the port is checked only in http mode. */
  function PreRun(mode: string, port: int): Option<string> {
    if mode != "stdio" && mode != "http" then Some("invalid server mode: must be 'stdio' or 'http'")
    else if mode == "http" && (port < 1 || port > 65535) then Some("invalid port: must be between 1 and 65535")
    else None
  }

  /** The level handed to the logger: debug (0) under --verbose, else the configured one. */
  function EffectiveLogLevel(configured: int, verbose: bool): int {
    if verbose then 0 else configured
  }

  /**
   * The exit code for what the transport returned: 0 for no error, for
   * exactly context.Canceled, and for an error wrapping
   * http.ErrServerClosed; 1 for everything else.
   */
  function ExitCode(err: Option<L.RunError>): int {
    match err
    case None => 0
    case Some(Transport(ContextStopped(Canceled))) => 0
    case Some(Transport(Failed(_, true))) => 0
    case Some(_) => 1
  }

  /** The stdio run's error as StartStdio returns it. */
  function StdioError(input: Stdio.Input): Option<L.RunError> {
    match Stdio.StartResult(input)
    case None => None
    case Some(e) => Some(L.Transport(e))
  }

  /**
   * The flag checks: a mode other than stdio or http is refused whatever
   * the port; in http mode the port must lie in 1..65535; in stdio mode
   * the port is never looked at.
   */
  lemma PreRunChecks(mode: string, port: int, other: int)
    ensures PreRun(mode, port).None? <==> mode == "stdio" || (mode == "http" && 1 <= port <= 65535)
    ensures mode != "stdio" && mode != "http" ==> PreRun(mode, port) == Some("invalid server mode: must be 'stdio' or 'http'")
    ensures mode == "stdio" ==> PreRun(mode, port) == PreRun(mode, other) == None
    ensures PreRun("http", 99999) == Some("invalid port: must be between 1 and 65535")
    ensures PreRun("http", 8080).None? && PreRun("stdio", 99999).None?
  {
  }

  /**
   * The exit code is 0 exactly for a clean stop, a cancellation, or a
   * wrapped http.ErrServerClosed; a deadline, any other error and a second
   * start exit 1.
   */
  lemma ExitCodes(err: Option<L.RunError>)
    ensures ExitCode(err) == 0 || ExitCode(err) == 1
    ensures ExitCode(err) == 0 <==>
            err.None? || err == Some(L.Transport(ContextStopped(Canceled))) ||
            (err.Some? && err.value.Transport? && err.value.stop.Failed? && err.value.stop.wrapsServerClosed)
    ensures ExitCode(Some(L.AlreadyRunning)) == 1
    ensures ExitCode(Some(L.Transport(ContextStopped(DeadlineExceeded)))) == 1
  {
  }

  /**
   * In stdio mode the process exits 0 when the signal cancels the loop and
   * when standard input ends; it exits 1 on a read error and when the
   * context's deadline passes.
   */
  lemma StdioExit(input: Stdio.Input)
    ensures var stopped := input.cancel.Some? && input.cancel.value.afterSteps <= |input.lines|;
            ExitCode(StdioError(input)) == 0 <==>
            (stopped && input.cancel.value.cause == Canceled) || (!stopped && input.readError.None?)
  {
  }

  /**
   * In http mode the process exits 0 exactly when the signal cancels the
   * context and the graceful shutdown succeeds; a failed shutdown, a
   * failed listen and a deadline exit 1.
   */
  lemma HttpExit(stop: HttpTransport.HttpStop)
    ensures ExitCode(Some(L.Transport(HttpTransport.StartResult(stop)))) == 0 <==>
            stop == HttpTransport.ContextDone(Canceled, None)
  {
  }

  /**
   * The level the logger is meant to run at: debug under --verbose, the
   * configured level otherwise; its name is the configuration's name for
   * that level.
   */
  lemma IntendedRunLevel(env: C.Env, verbose: bool)
    ensures verbose ==> Logging.IntendedLevel(EffectiveLogLevel(C.Loaded(env).logLevel, verbose)) == Logging.Debug
    ensures Logging.LevelName(Logging.IntendedLevel(EffectiveLogLevel(C.Loaded(env).logLevel, verbose))) ==
            C.LevelName(EffectiveLogLevel(C.Loaded(env).logLevel, verbose))
  {
    Logging.IntendedLevelNames(EffectiveLogLevel(C.Loaded(env).logLevel, verbose));
  }

  /**
   * As written, --verbose reaches the logger only while LOG_LEVEL is unset:
   * with LOG_LEVEL=0 (debug, as documented) the logger runs at info even
   * under --verbose.
   */
  lemma VerboseAsWritten(env: C.Env, logFile: string)
    ensures env("LOG_LEVEL") == "" ==>
            Logging.Settings(EffectiveLogLevel(C.Loaded(env).logLevel, true), logFile, env).level == Logging.Debug
    ensures env("LOG_LEVEL") == "0" ==>
            Logging.Settings(EffectiveLogLevel(C.Loaded(env).logLevel, true), logFile, env).level == Logging.Info
  {
    Logging.LevelSelection(env("LOG_LEVEL"), 0, 0);
    if env("LOG_LEVEL") == "0" {
      Logging.NumericLogLevelIgnored(env, 0);
    }
  }

  /** The run gets past the logger, the validation and the CLI client. */
  predicate Started(cfg: C.Config, env: C.Env, verbose: bool, urlParses: string -> bool, isDir: string -> bool,
                    cliError: Option<string>, build: Logging.LoggerConfig -> Option<string>)
  {
    build(Logging.Settings(EffectiveLogLevel(cfg.logLevel, verbose), cfg.logFile, env)).None? &&
    C.Problems(cfg, urlParses, isDir) == [] && cliError.None?
  }

  /** The tools/list and tools/call behaviour of a freshly built server. */
  function DefaultModel(exec: Executor, listing: seq<Tool>): ServerModel {
    McpServer.AsServerModel(L.ServerName, L.ServerVersion, map["list_devices" := ListDevices], exec, listing)
  }

  /** What the stdio run writes: a frame for each reply to the lines read before it stops. */
  function StdioOutput(input: Stdio.Input, parse: string -> Envelope, sink: Stdio.Sink, exec: Executor, listing: seq<Tool>): seq<string> {
    Stdio.Frames(Stdio.Replies(input.lines[..Stdio.Processed(input)], parse, DefaultModel(exec, listing)), sink, 0)
  }

  /**
   * runServer's preparation: initialize the logger (debug under --verbose)
   * and build the server. A logger that cannot be built, an invalid
   * configuration and a CLI client that cannot be created all stop the run
   * here; otherwise the server is new, idle, and holds the default MCP
   * server over the built-in tools.
   */
  method Prepare(
    cfg: C.Config, env: C.Env, verbose: bool,
    urlParses: string -> bool, isDir: string -> bool, cliError: Option<string>,
    logger: Logging.LoggerState, build: Logging.LoggerConfig -> Option<string>)
    returns (server: Option<L.TailscaleMCPServer>)
    modifies logger
    ensures server.None? <==> !Started(cfg, env, verbose, urlParses, isDir, cliError, build)
    ensures server.Some? ==>
            fresh(server.value) && !server.value.running && server.value.mcpServer.Default? &&
            server.value.mcpServer.server.name == L.ServerName && server.value.mcpServer.server.version == L.ServerVersion &&
            server.value.mcpServer.server.registry.tools == map["list_devices" := ListDevices]
  {
    var logLevel := EffectiveLogLevel(cfg.logLevel, verbose);
    var logErr := logger.Initialize(logLevel, cfg.logFile, env, build);
    if logErr.Some? {
      return None;
    }
    var created := L.New(Some(cfg), urlParses, isDir, cliError, []);
    if created.Err? {
      return None;
    }
    assert L.LastServer([]).None? && L.LastRegistry([]).None?;
    return Some(created.value);
  }

  /**
   * runServer from the loaded configuration on: prepare, then run the
   * transport the mode names and turn its outcome into the exit code.
   * Nothing is served when the preparation fails.
   */
  method RunLoaded(
    cfg: C.Config, env: C.Env, verbose: bool, mode: string, port: int,
    urlParses: string -> bool, isDir: string -> bool, cliError: Option<string>,
    logger: Logging.LoggerState, build: Logging.LoggerConfig -> Option<string>,
    input: Stdio.Input, parse: string -> Envelope, sink: Stdio.Sink, exec: Executor, listing: seq<Tool>,
    httpStop: HttpTransport.HttpStop)
    returns (code: int, written: seq<string>)
    requires PreRun(mode, port).None?
    requires McpServer.ListsTools(map["list_devices" := ListDevices], listing)
    modifies logger
    ensures !Started(cfg, env, verbose, urlParses, isDir, cliError, build) ==> code == 1 && written == []
    ensures Started(cfg, env, verbose, urlParses, isDir, cliError, build) && mode == "stdio" ==>
            code == ExitCode(StdioError(input)) &&
            written == StdioOutput(input, parse, sink, exec, listing)
    ensures Started(cfg, env, verbose, urlParses, isDir, cliError, build) && mode == "http" ==>
            code == ExitCode(Some(Transport(HttpTransport.StartResult(httpStop)))) && written == []
  {
    written := [];
    var prepared := Prepare(cfg, env, verbose, urlParses, isDir, cliError, logger, build);
    if prepared.None? {
      return 1, [];
    }
    // PreRun has left only the two modes, so the default case is not reached.
    if mode == "stdio" {
      code, written := RunStdio(prepared.value, input, parse, sink, exec, listing);
    } else {
      var err := prepared.value.StartHTTP(httpStop, port);
      code := ExitCode(err);
    }
  }

  /** The stdio branch of runServer on a freshly prepared server. */
  method RunStdio(server: L.TailscaleMCPServer, input: Stdio.Input, parse: string -> Envelope, sink: Stdio.Sink,
                  exec: Executor, listing: seq<Tool>)
    returns (code: int, written: seq<string>)
    requires !server.running && server.mcpServer.Default?
    requires server.mcpServer.server.name == L.ServerName && server.mcpServer.server.version == L.ServerVersion
    requires server.mcpServer.server.registry.tools == map["list_devices" := ListDevices]
    requires McpServer.ListsTools(map["list_devices" := ListDevices], listing)
    modifies server
    ensures code == ExitCode(StdioError(input))
    ensures written == StdioOutput(input, parse, sink, exec, listing)
  {
    assert server.Served(exec, listing) == DefaultModel(exec, listing);
    var err;
    err, written := server.StartStdio(input, parse, sink, exec, listing);
    code := ExitCode(err);
  }

  /**
   * The serve command: PreRun's refusal exits 1 through the root command;
   * otherwise the configuration is loaded from the environment and the run
   * goes on as RunLoaded says.
   */
  method RunServer(
    env: C.Env, verbose: bool, mode: string, port: int,
    urlParses: string -> bool, isDir: string -> bool, cliError: Option<string>,
    logger: Logging.LoggerState, build: Logging.LoggerConfig -> Option<string>,
    input: Stdio.Input, parse: string -> Envelope, sink: Stdio.Sink, exec: Executor, listing: seq<Tool>,
    httpStop: HttpTransport.HttpStop)
    returns (code: int, written: seq<string>)
    requires McpServer.ListsTools(map["list_devices" := ListDevices], listing)
    modifies logger
    ensures PreRun(mode, port).Some? ==> code == 1 && written == []
    ensures PreRun(mode, port).None? && !Started(C.Loaded(env), env, verbose, urlParses, isDir, cliError, build) ==>
            code == 1 && written == []
    ensures PreRun(mode, port).None? && Started(C.Loaded(env), env, verbose, urlParses, isDir, cliError, build) && mode == "stdio" ==>
            code == ExitCode(StdioError(input)) &&
            written == StdioOutput(input, parse, sink, exec, listing)
    ensures PreRun(mode, port).None? && Started(C.Loaded(env), env, verbose, urlParses, isDir, cliError, build) && mode == "http" ==>
            code == ExitCode(Some(Transport(HttpTransport.StartResult(httpStop)))) && written == []
  {
    if PreRun(mode, port).Some? {
      return 1, [];
    }
    var cfg := C.Load(env);
    code, written := RunLoaded(cfg, env, verbose, mode, port, urlParses, isDir, cliError, logger, build,
                               input, parse, sink, exec, listing, httpStop);
  }
}
