/**
 * The Tailscale CLI wrapper: ExecuteCommand validates an argument list
 * against the policy, starts the tailscale binary, captures its bounded
 * output and turns a failure into a CLIError; Up, Ping, SetExitNode,
 * SetShieldsUp, IsAvailable and ListPeers build argument lists on top of it.
 *
 * The child process is not run: what it would write and how it would end
 * is an input (RunOutcome), and the wrapper object records every process it
 * starts, so that "nothing is started" can be stated.
 */
module TailscaleCli {
  import opened Wrappers
  import opened Text
  import opened CliPolicy
  import opened Utils

  /** How the child process ends. */
  datatype ProcessEnd =
    | Exited(code: int)
    | Signaled(signal: string)
    | StartFailed(reason: string)

  /** What the child would write to stdout and stderr and how it would end, and whether the 30 s deadline passed. */
  datatype RunOutcome = RunOutcome(
    stdout: seq<seq<byte>>,
    stderr: seq<seq<byte>>,
    end: ProcessEnd,
    deadlineExceeded: bool)

  /** A process the wrapper started: the binary, its arguments and the extra environment entries. */
  datatype Invocation = Invocation(path: string, args: seq<string>, extraEnv: seq<string>)

  /** The error cmd.Run reports. */
  datatype RunError =
    | StartError(reason: string)
    | ExitError(code: int)
    | SignalError(signal: string)
    | CopyError(overflow: OverflowError)

  /**
   * The error of cmd.Run: a start failure, else an unsuccessful exit, else
   * the first error of copying the output (both copies fail alike).
   */
  function RunErrorOf(end: ProcessEnd, copyErr: Option<OverflowError>): Option<RunError> {
    match end
    case StartFailed(reason) => Some(StartError(reason))
    case Signaled(sig) => Some(SignalError(sig))
    case Exited(code) =>
      if code != 0 then Some(ExitError(code))
      else if copyErr.Some? then Some(CopyError(copyErr.value))
      else None
  }

  /** The exit code a CLIError takes from an *exec.ExitError; 0 for any other error. */
  function ExitCodeOf(e: RunError): int {
    match e
    case ExitError(code) => code
    case SignalError(_) => -1
    case _ => 0
  }

  function RunErrorText(e: RunError): string {
    match e
    case StartError(reason) => reason
    case ExitError(code) => "exit status " + IntToString(code)
    case SignalError(sig) => "signal: " + sig
    case CopyError(OutputExceeds(limit)) => "output exceeds " + NatToString(limit) + " bytes: short write"
  }

  /** The underlying error of a CLIError: the run error, or the timeout message that replaces it. */
  datatype Cause = RunFailed(run: RunError) | TimedOut

  function CauseText(c: Cause): string {
    match c
    case RunFailed(e) => RunErrorText(e)
    case TimedOut => "command timed out after " + NatToString(TimeoutSeconds) + "s"
  }

  datatype CLIError = CLIError(
    command: string,
    args: seq<string>,
    exitCode: int,
    stderr: string,
    underlying: Option<Cause>)

  /** CLIError.Error */
  function CLIErrorText(e: CLIError): (r: string)
    ensures e.underlying.Some? ==> r == "tailscale " + e.command + " failed: " + CauseText(e.underlying.value)
    ensures e.underlying.None? ==>
      r == "tailscale " + e.command + " failed with exit code " + IntToString(e.exitCode) + ": " + e.stderr
  {
    "tailscale " + e.command +
    match e.underlying
    case Some(c) => " failed: " + CauseText(c)
    case None => " failed with exit code " + IntToString(e.exitCode) + ": " + e.stderr
  }

  /** The errors of the wrapper's operations; each `%w` wrapping keeps its cause. */
  datatype Error =
    | CommandRefused(rejection: CommandRejection)
    | CommandFailed(cli: CLIError)
    | InvalidLoginServer(input: InputRejection)
    | InvalidHostname(input: InputRejection)
    | InvalidRoutes(routes: RouteRejection)
    | InvalidAuthKey(input: InputRejection)
    | InvalidTarget(target: TargetRejection)
    | BadPingCount
    | InvalidNodeID(target: TargetRejection)
    | StatusFailed(cause: Error)
    | StatusUnparsable(reason: string)

  function RejectionText(r: CommandRejection): string {
    match r
    case NoCommand => "no command specified"
    case NotAllowed(c) => "command " + Quote(c) + " not allowed"
    case BadArgument(i, a, ArgTooLong(n)) => "argument " + NatToString(i) + " too long (" + NatToString(n) + " chars)"
    case BadArgument(i, a, ArgHasMetachar) => "argument " + NatToString(i) + " contains invalid characters: " + Quote(a)
  }

  function TargetRejectionText(r: TargetRejection): string {
    match r
    case EmptyTarget => "target cannot be empty"
    case DangerousChar(c) => "invalid character " + Quote([c]) + " in target"
    case PathPattern => "invalid path patterns in target"
    case PatternMismatch => "target contains invalid characters"
    case TargetTooLong => "target too long (max " + NatToString(MaxHostnameLen) + " chars)"
  }

  function InputRejectionText(r: InputRejection, field: string): string {
    match r
    case InputDangerousChar(c) => "invalid character " + Quote([c]) + " in " + field
    case InputTooLong => field + " too long (max " + NatToString(MaxArgLen) + " chars)"
  }

  function RouteRejectionText(r: RouteRejection): string {
    match r
    case BadRouteFormat(i, route) => "invalid route format at index " + NatToString(i) + ": " + route
    case BadCidr(i, route) =>
      "invalid CIDR route at index " + NatToString(i) + " (" + route + "): invalid CIDR address: " + route
  }

  const StatusFailedPrefix := "failed to get status: "

  function ErrorText(e: Error): string {
    match e
    case CommandRefused(r) => RejectionText(r)
    case CommandFailed(c) => CLIErrorText(c)
    case InvalidLoginServer(r) => "invalid login server: " + InputRejectionText(r, "loginServer")
    case InvalidHostname(r) => "invalid hostname: " + InputRejectionText(r, "hostname")
    case InvalidRoutes(r) => "invalid routes: " + RouteRejectionText(r)
    case InvalidAuthKey(r) => "invalid auth key: " + InputRejectionText(r, "authKey")
    case InvalidTarget(r) => "invalid target: " + TargetRejectionText(r)
    case BadPingCount =>
      "count must be an integer between " + IntToString(MinPingCount) + " and " + IntToString(MaxPingCount)
    case InvalidNodeID(r) => "invalid node ID: " + TargetRejectionText(r)
    case StatusFailed(inner) => StatusFailedPrefix + ErrorText(inner)
    case StatusUnparsable(reason) => "failed to parse status data: " + reason
  }

  // ---------------------------------------------------------------------------
  // ExecuteCommand
  // ---------------------------------------------------------------------------

  /** The output a started child leaves; one that never started writes nothing. */
  function WrittenStdout(o: RunOutcome): seq<seq<byte>> {
    if o.end.StartFailed? then [] else o.stdout
  }

  function WrittenStderr(o: RunOutcome): seq<seq<byte>> {
    if o.end.StartFailed? then [] else o.stderr
  }

  /** The copy error, if either stream went over the buffer limit. */
  function CopyErrorOf(o: RunOutcome): Option<OverflowError> {
    if |Flatten(WrittenStdout(o))| > MaxBufSize || |Flatten(WrittenStderr(o))| > MaxBufSize
    then Some(OutputExceeds(MaxBufSize)) else None
  }

  /** What running an accepted command gives: the trimmed stdout, or a CLIError with the trimmed stderr. */
  function RunResult(args: seq<string>, o: RunOutcome): Result<string, Error>
    requires |args| > 0
  {
    var stdout := TrimSpace(Utf8Decode(Capped(Flatten(WrittenStdout(o)), MaxBufSize)));
    var stderr := TrimSpace(Utf8Decode(Capped(Flatten(WrittenStderr(o)), MaxBufSize)));
    match RunErrorOf(o.end, CopyErrorOf(o))
    case None => Ok(stdout)
    case Some(e) =>
      var cause := if o.deadlineExceeded then TimedOut else RunFailed(e);
      Err(CommandFailed(CLIError(args[0], args, ExitCodeOf(e), stderr, Some(cause))))
  }

  /** ExecuteCommand's result: a rejection when the policy refuses the arguments, otherwise the run's result. */
  function ExecuteResult(args: seq<string>, o: RunOutcome): Result<string, Error> {
    match CheckCommand(args)
    case Some(r) => Err(CommandRefused(r))
    case None => RunResult(args, o)
  }

  /** The validation prefix of ExecuteCommand, scanning the arguments in order. */
  method ValidateCommand(args: seq<string>) returns (rejection: Option<CommandRejection>)
    ensures rejection == CheckCommand(args)
  {
    if |args| == 0 {
      return Some(NoCommand);
    }
    var command := args[0];
    if command !in AllowedCommands {
      return Some(NotAllowed(command));
    }
    var i := 0;
    while i < |args|
      invariant 0 <= i <= |args|
      invariant CheckArgsFrom(args, 0) == CheckArgsFrom(args, i)
    {
      var a := args[i];
      if Utf8Len(a) > MaxArgLen {
        return Some(BadArgument(i, a, ArgTooLong(Utf8Len(a))));
      }
      if ContainsAny(a, ShellMetachars) {
        return Some(BadArgument(i, a, ArgHasMetachar));
      }
      i := i + 1;
    }
    return None;
  }

  /** A refused command fails the same way whatever the child would have done. */
  lemma RefusedCommandIgnoresOutcome(args: seq<string>, o1: RunOutcome, o2: RunOutcome)
    requires CheckCommand(args).Some?
    ensures ExecuteResult(args, o1) == ExecuteResult(args, o2) == Err(CommandRefused(CheckCommand(args).value))
  {
  }

  /**
   * An accepted command succeeds exactly when the child exits with 0 and
   * neither stream overflows; it then yields the trimmed stdout, and every
   * failure is a CLIError for the first argument with its cause set.
   */
  lemma ExecuteOutcome(args: seq<string>, o: RunOutcome)
    requires CheckCommand(args).None?
    ensures ExecuteResult(args, o).Ok? <==>
            o.end == Exited(0) &&
            |Flatten(o.stdout)| <= MaxBufSize && |Flatten(o.stderr)| <= MaxBufSize
    ensures ExecuteResult(args, o).Ok? ==> ExecuteResult(args, o).value == TrimSpace(Utf8Decode(Flatten(o.stdout)))
    ensures ExecuteResult(args, o).Err? ==>
            var e := ExecuteResult(args, o).error;
            e.CommandFailed? && e.cli.command == args[0] && e.cli.args == args && e.cli.underlying.Some? &&
            (o.deadlineExceeded <==> e.cli.underlying == Some(TimedOut))
  {
    RunSucceeds(o);
    if RunErrorOf(o.end, CopyErrorOf(o)).None? {
      assert Capped(Flatten(o.stdout), MaxBufSize) == Flatten(o.stdout);
    }
  }

  /** The run is free of errors exactly when the child exits with 0 and neither stream overflows. */
  lemma RunSucceeds(o: RunOutcome)
    ensures RunErrorOf(o.end, CopyErrorOf(o)).None? <==>
            o.end == Exited(0) && |Flatten(o.stdout)| <= MaxBufSize && |Flatten(o.stderr)| <= MaxBufSize
  {
  }

  /** A CLIError from ExecuteCommand always reads "tailscale <command> failed: <cause>". */
  lemma ExecuteErrorText(args: seq<string>, o: RunOutcome)
    requires CheckCommand(args).None? && ExecuteResult(args, o).Err?
    ensures var e := ExecuteResult(args, o).error;
            e.CommandFailed? && ErrorText(e) == "tailscale " + args[0] + " failed: " + CauseText(e.cli.underlying.value)
  {
    ExecuteOutcome(args, o);
  }

  // ---------------------------------------------------------------------------
  // Argument builders
  // ---------------------------------------------------------------------------

  /** UpOptions; the timeout is a time.Duration in nanoseconds. */
  datatype UpOptions = UpOptions(
    loginServer: string,
    acceptRoutes: bool,
    acceptDNS: bool,
    hostname: string,
    advertiseRoutes: seq<string>,
    authKey: string,
    timeout: int)

  /** The flags of each option of a validated Up, in the order Up appends them. */
  function LoginFlags(o: UpOptions): seq<string> {
    if o.loginServer != "" then ["--login-server", o.loginServer] else []
  }

  function AcceptFlags(o: UpOptions): seq<string> {
    (if o.acceptRoutes then ["--accept-routes"] else []) + (if o.acceptDNS then ["--accept-dns"] else [])
  }

  function HostnameFlags(o: UpOptions): seq<string> {
    if o.hostname != "" then ["--hostname", o.hostname] else []
  }

  function RouteFlags(o: UpOptions): seq<string> {
    if |o.advertiseRoutes| > 0 then ["--advertise-routes", Join(o.advertiseRoutes, ",")] else []
  }

  /** The whole seconds of a positive duration, as `<n>s`. */
  function Seconds(timeout: int): string
    requires timeout > 0
  {
    NatToString(timeout / 1_000_000_000) + "s"
  }

  /** `--timeout <n>s` with the whole seconds of the duration. */
  function TimeoutFlags(o: UpOptions): seq<string> {
    if o.timeout > 0 then ["--timeout", Seconds(o.timeout)] else []
  }

  /** The arguments of a validated Up. */
  function UpArgs(o: UpOptions): seq<string> {
    ["up"] + LoginFlags(o) + AcceptFlags(o) + HostnameFlags(o) + RouteFlags(o) + TimeoutFlags(o)
  }

  /** The extra environment of a validated Up: the auth key, if any. */
  function UpEnv(o: UpOptions): seq<string> {
    if o.authKey != "" then ["TS_AUTHKEY=" + o.authKey] else []
  }

  /** The command Up runs, or the first validation failure in the order the options are looked at. */
  function UpCommand(options: Option<UpOptions>): Result<(seq<string>, seq<string>), Error> {
    match options
    case None => Ok((["up"], []))
    case Some(o) =>
      if o.loginServer != "" && CheckStringInput(o.loginServer).Some? then
        Err(InvalidLoginServer(CheckStringInput(o.loginServer).value))
      else if o.hostname != "" && CheckStringInput(o.hostname).Some? then
        Err(InvalidHostname(CheckStringInput(o.hostname).value))
      else if |o.advertiseRoutes| > 0 && CheckRoutes(o.advertiseRoutes).Some? then
        Err(InvalidRoutes(CheckRoutes(o.advertiseRoutes).value))
      else if o.authKey != "" && CheckStringInput(o.authKey).Some? then
        Err(InvalidAuthKey(CheckStringInput(o.authKey).value))
      else Ok((UpArgs(o), UpEnv(o)))
  }

  /** Options that pass every check give the full argument list and environment. */
  lemma UpAccepted(o: UpOptions)
    requires o.loginServer == "" || CheckStringInput(o.loginServer).None?
    requires o.hostname == "" || CheckStringInput(o.hostname).None?
    requires |o.advertiseRoutes| == 0 || CheckRoutes(o.advertiseRoutes).None?
    requires o.authKey == "" || CheckStringInput(o.authKey).None?
    ensures UpCommand(Some(o)) == Ok((UpArgs(o), UpEnv(o)))
  {
  }

  /**
   * The first half of Up's building: the login server, the accept flags and
   * the hostname, each string option checked before it is appended.
   */
  method BuildUpHead(o: UpOptions) returns (r: Result<seq<string>, Error>)
    ensures r.Err? ==> UpCommand(Some(o)) == Err(r.error)
    ensures r.Ok? ==> r.value == ["up"] + LoginFlags(o) + AcceptFlags(o) + HostnameFlags(o) &&
                      (o.loginServer == "" || CheckStringInput(o.loginServer).None?) &&
                      (o.hostname == "" || CheckStringInput(o.hostname).None?)
  {
    var args := ["up"];
    if o.loginServer != "" {
      var bad := CheckStringInput(o.loginServer);
      if bad.Some? {
        return Err(InvalidLoginServer(bad.value));
      }
      args := args + ["--login-server", o.loginServer];
    }
    assert args == ["up"] + LoginFlags(o);
    ghost var upToLogin := args;
    if o.acceptRoutes {
      args := args + ["--accept-routes"];
    }
    if o.acceptDNS {
      args := args + ["--accept-dns"];
    }
    assert args == upToLogin + AcceptFlags(o);
    ghost var upToAccept := args;
    if o.hostname != "" {
      var bad := CheckStringInput(o.hostname);
      if bad.Some? {
        return Err(InvalidHostname(bad.value));
      }
      args := args + ["--hostname", o.hostname];
    }
    assert args == upToAccept + HostnameFlags(o);
    return Ok(args);
  }

  /**
   * Up's argument and environment building, by successive appends: the
   * first half, then the routes, the auth key (into the environment) and
   * the timeout.
   */
  method BuildUp(options: Option<UpOptions>) returns (r: Result<(seq<string>, seq<string>), Error>)
    ensures r == UpCommand(options)
  {
    var args := ["up"];
    var env := [];
    if options.Some? {
      var o := options.value;
      var head := BuildUpHead(o);
      if head.Err? {
        return Err(head.error);
      }
      args := head.value;
      ghost var upToHostname := args;
      if |o.advertiseRoutes| > 0 {
        var bad := CheckRoutes(o.advertiseRoutes);
        if bad.Some? {
          return Err(InvalidRoutes(bad.value));
        }
        args := args + ["--advertise-routes", Join(o.advertiseRoutes, ",")];
      }
      assert args == upToHostname + RouteFlags(o);
      if o.authKey != "" {
        var bad := CheckStringInput(o.authKey);
        if bad.Some? {
          return Err(InvalidAuthKey(bad.value));
        }
        env := env + ["TS_AUTHKEY=" + o.authKey];
      }
      ghost var upToRoutes := args;
      if o.timeout > 0 {
        args := args + ["--timeout", Seconds(o.timeout)];
      }
      assert args == upToRoutes + TimeoutFlags(o);
      assert args == UpArgs(o) && env == UpEnv(o);
      UpAccepted(o);
    }
    return Ok((args, env));
  }

  /** Without options Up runs exactly `tailscale up` with no extra environment. */
  lemma UpWithoutOptions()
    ensures UpCommand(None) == Ok((["up"], []))
  {
  }

  /**
   * The auth key travels only in the environment: changing it never changes
   * the arguments, and the environment is exactly TS_AUTHKEY=<key> when a
   * key is given and empty otherwise.
   */
  lemma UpAuthKeyOnlyInEnv(o: UpOptions, key: string)
    requires UpCommand(Some(o)).Ok? && UpCommand(Some(o.(authKey := key))).Ok?
    ensures UpCommand(Some(o)).value.0 == UpCommand(Some(o.(authKey := key))).value.0
    ensures UpCommand(Some(o.(authKey := key))).value.1 == if key != "" then ["TS_AUTHKEY=" + key] else []
  {
  }

  /** An auth key the input check refuses fails Up even when every other option is valid. */
  lemma UpRefusesBadAuthKey(o: UpOptions)
    requires UpCommand(Some(o.(authKey := ""))).Ok?
    requires o.authKey != "" && CheckStringInput(o.authKey).Some?
    ensures UpCommand(Some(o)) == Err(InvalidAuthKey(CheckStringInput(o.authKey).value))
  {
  }

  /** The flags come in a fixed order: the login server, when given, right after "up". */
  lemma UpFlagOrder(o: UpOptions)
    requires UpCommand(Some(o)).Ok?
    ensures var args := UpCommand(Some(o)).value.0;
            args[0] == "up" &&
            (o.loginServer != "" ==> args[1] == "--login-server" && args[2] == o.loginServer) &&
            (o.loginServer == "" && o.acceptRoutes ==> args[1] == "--accept-routes")
  {
  }

  /** A hostname with ';' is refused naming the character and the field. */
  lemma UpRefusesSemicolonHostname(o: UpOptions)
    requires o.loginServer == "" && o.hostname != "" && ';' in o.hostname
    ensures UpCommand(Some(o)) == Err(InvalidHostname(InputDangerousChar(';')))
  {
    assert ';' == InputDangerous[0];
  }

  /** Ping's command: the target is checked before the count. */
  function PingCommand(target: string, count: int): Result<seq<string>, Error> {
    match CheckTarget(target)
    case Some(r) => Err(InvalidTarget(r))
    case None =>
      if count < MinPingCount || count > MaxPingCount then Err(BadPingCount)
      else Ok(["ping", target, "-c", IntToString(count)])
  }

  /** Ping succeeds in building a command exactly for an accepted target and a count in 1..100. */
  lemma PingBuilds(target: string, count: int)
    ensures PingCommand(target, count).Ok? <==> CheckTarget(target).None? && 1 <= count <= 100
    ensures PingCommand(target, count).Ok? ==> PingCommand(target, count).value == ["ping", target, "-c", IntToString(count)]
    ensures PingCommand(target, count) == Err(BadPingCount) <==> CheckTarget(target).None? && !(1 <= count <= 100)
  {
  }

  /** A command Ping builds is never refused by ExecuteCommand. */
  lemma PingCommandAccepted(target: string, count: int)
    requires PingCommand(target, count).Ok?
    ensures CheckCommand(PingCommand(target, count).value).None?
  {
    var args := ["ping", target, "-c", IntToString(count)];
    AcceptedTargetIsSafeArgument(target);
    NatToStringDigits(count);
    NatToStringLength(count);
    forall j | 0 <= j < |args| ensures ArgProblemOf(args[j]) == None {
      if j != 1 {
        PlainArgAccepted(args[j]);
      }
    }
    CommandAccepted(args);
  }

  lemma {:induction false} NatToStringLength(n: nat)
    ensures |NatToString(n)| <= n + 1
    decreases n
  {
    if n >= 10 {
      NatToStringLength(n / 10);
    }
  }

  /** SetExitNode's command: an empty id clears the exit node, any other must be an accepted target. */
  function ExitNodeCommand(nodeID: string): Result<seq<string>, Error> {
    if nodeID == "" then Ok(["set", "--exit-node="])
    else match CheckTarget(nodeID)
      case Some(r) => Err(InvalidNodeID(r))
      case None => Ok(["set", "--exit-node", nodeID])
  }

  /** SetExitNode's argument building: the node id is checked before it is appended. */
  method BuildExitNode(nodeID: string) returns (r: Result<seq<string>, Error>)
    ensures r == ExitNodeCommand(nodeID)
  {
    var args := ["set"];
    if nodeID != "" {
      var bad := CheckTarget(nodeID);
      if bad.Some? {
        return Err(InvalidNodeID(bad.value));
      }
      args := args + ["--exit-node", nodeID];
      assert args == ["set", "--exit-node", nodeID];
    } else {
      args := args + ["--exit-node="];
      assert args == ["set", "--exit-node="];
    }
    return Ok(args);
  }

  /** Clearing is `set --exit-node=`; setting names the node as a separate argument; both pass ExecuteCommand. */
  lemma ExitNodeBuilds(nodeID: string)
    ensures ExitNodeCommand("") == Ok(["set", "--exit-node="])
    ensures nodeID != "" ==> (ExitNodeCommand(nodeID).Ok? <==> CheckTarget(nodeID).None?)
    ensures ExitNodeCommand(nodeID).Ok? ==> CheckCommand(ExitNodeCommand(nodeID).value).None?
  {
    if nodeID == "" {
      PlainArgsAccepted(["set", "--exit-node="]);
    } else if CheckTarget(nodeID).None? {
      var args := ["set", "--exit-node", nodeID];
      AcceptedTargetIsSafeArgument(nodeID);
      forall j | 0 <= j < 2 ensures ArgProblemOf(args[j]) == None {
        PlainArgAccepted(args[j]);
      }
      CommandAccepted(args);
    }
  }

  /** An allowlisted command whose arguments are all short and plain is accepted. */
  lemma PlainArgsAccepted(args: seq<string>)
    requires |args| > 0 && args[0] in AllowedCommands
    requires forall j, i :: 0 <= j < |args| && 0 <= i < |args[j]| ==> IsPlainChar(args[j][i])
    requires forall j :: 0 <= j < |args| ==> |args[j]| <= MaxArgLen
    ensures CheckCommand(args).None?
  {
    forall j | 0 <= j < |args| ensures ArgProblemOf(args[j]) == None {
      PlainArgAccepted(args[j]);
    }
    CommandAccepted(args);
  }

  /** SetShieldsUp's command. */
  function ShieldsUpCommand(enabled: bool): (args: seq<string>)
    ensures CheckCommand(args).None?
    ensures |args| == 3 && args[..2] == ["set", "--shields-up"]
    ensures args[2] == "true" <==> enabled
  {
    var args := ["set", "--shields-up", if enabled then "true" else "false"];
    PlainArgsAccepted(args);
    args
  }

  // ---------------------------------------------------------------------------
  // Status and peers
  // ---------------------------------------------------------------------------

  datatype PeerStatus = PeerStatus(hostName: string)

  /** The parts of `tailscale status --json` the wrapper reads: the peers in map iteration order. */
  datatype TailscaleStatus = TailscaleStatus(peers: seq<PeerStatus>)

  /** The host names that are not empty, in the order given. */
  function NamedPeers(peers: seq<PeerStatus>): (r: seq<string>)
    ensures |r| <= |peers|
    ensures forall i :: 0 <= i < |r| ==> r[i] != ""
  {
    if |peers| == 0 then []
    else NamedPeers(peers[..|peers| - 1]) +
         (if peers[|peers| - 1].hostName != "" then [peers[|peers| - 1].hostName] else [])
  }

  /** Exactly the non-empty host names appear. */
  lemma {:induction false} NamedPeersExact(peers: seq<PeerStatus>, h: string)
    ensures h in NamedPeers(peers) <==> h != "" && exists i :: 0 <= i < |peers| && peers[i].hostName == h
    decreases |peers|
  {
    if |peers| > 0 {
      var init := peers[..|peers| - 1];
      NamedPeersExact(init, h);
      if exists i :: 0 <= i < |init| && init[i].hostName == h {
        var i :| 0 <= i < |init| && init[i].hostName == h;
        assert peers[i].hostName == h;
      }
      if h != "" && exists i :: 0 <= i < |peers| && peers[i].hostName == h {
        var i :| 0 <= i < |peers| && peers[i].hostName == h;
        if i < |init| {
          assert init[i].hostName == h;
        }
      }
    }
  }

  /** ListPeers' loop collecting the named peers. */
  method CollectPeers(peers: seq<PeerStatus>) returns (names: seq<string>)
    ensures names == NamedPeers(peers)
  {
    names := [];
    var i := 0;
    while i < |peers|
      invariant 0 <= i <= |peers|
      invariant names == NamedPeers(peers[..i])
    {
      assert peers[..i + 1][..i] == peers[..i];
      if peers[i].hostName != "" {
        names := names + [peers[i].hostName];
      }
      i := i + 1;
    }
    assert peers[..i] == peers;
  }

  /** GetStatus: run `status --json` and parse its output with the schema parser. */
  function StatusResult(o: RunOutcome, parse: string -> Result<TailscaleStatus, string>): Result<TailscaleStatus, Error> {
    match ExecuteResult(["status", "--json"], o)
    case Err(e) => Err(StatusFailed(e))
    case Ok(out) =>
      match parse(out)
      case Err(reason) => Err(StatusUnparsable(reason))
      case Ok(st) => Ok(st)
  }

  /** ListPeers: the named peers, or the status error wrapped once more. */
  function PeersResult(o: RunOutcome, parse: string -> Result<TailscaleStatus, string>): Result<seq<string>, Error> {
    match StatusResult(o, parse)
    case Err(e) => Err(StatusFailed(e))
    case Ok(st) => Ok(NamedPeers(st.peers))
  }

  /** A failed status run surfaces from ListPeers wrapped twice in "failed to get status". */
  lemma PeersFailureWrapsTwice(o: RunOutcome, parse: string -> Result<TailscaleStatus, string>)
    requires ExecuteResult(["status", "--json"], o).Err?
    ensures var inner := ExecuteResult(["status", "--json"], o).error;
            PeersResult(o, parse) == Err(StatusFailed(StatusFailed(inner))) &&
            ErrorText(PeersResult(o, parse).error) == StatusFailedPrefix + (StatusFailedPrefix + ErrorText(inner))
  {
    var inner := ExecuteResult(["status", "--json"], o).error;
    StatusFailedText(StatusFailed(inner));
    StatusFailedText(inner);
  }

  lemma StatusFailedText(e: Error)
    ensures ErrorText(StatusFailed(e)) == StatusFailedPrefix + ErrorText(e)
  {
  }

  /** The wrapper around one tailscale binary; `started` lists every process it has started. */
  class Cli {
    const path: string
    var started: seq<Invocation>

    constructor (path: string)
      ensures this.path == path && started == []
    {
      this.path := path;
      started := [];
    }

    /** ExecuteCommand: nothing is started unless the policy accepts the arguments. */
    method ExecuteCommand(args: seq<string>, env: seq<string>, o: RunOutcome) returns (r: Result<string, Error>)
      modifies this
      ensures r == ExecuteResult(args, o)
      ensures started == if CheckCommand(args).None? then old(started) + [Invocation(path, args, env)] else old(started)
    {
      var rejection := ValidateCommand(args);
      if rejection.Some? {
        return Err(CommandRefused(rejection.value));
      }
      started := started + [Invocation(path, args, env)];
      var out, outErr := Capture(WrittenStdout(o), MaxBufSize);
      var errOut, errErr := Capture(WrittenStderr(o), MaxBufSize);
      var stderrText := TrimSpace(Utf8Decode(errOut));
      var copyErr := if outErr.Some? then outErr else errErr;
      var runErr := RunErrorOf(o.end, copyErr);
      if runErr.Some? {
        var cause := RunFailed(runErr.value);
        if o.deadlineExceeded {
          cause := TimedOut;
        }
        return Err(CommandFailed(CLIError(args[0], args, ExitCodeOf(runErr.value), stderrText, Some(cause))));
      }
      return Ok(TrimSpace(Utf8Decode(out)));
    }

    method Up(options: Option<UpOptions>, o: RunOutcome) returns (err: Option<Error>)
      modifies this
      ensures UpCommand(options).Err? ==> err == Some(UpCommand(options).error) && started == old(started)
      ensures UpCommand(options).Ok? ==>
                var (args, env) := UpCommand(options).value;
                err == (if ExecuteResult(args, o).Ok? then None else Some(ExecuteResult(args, o).error)) &&
                started == if CheckCommand(args).None? then old(started) + [Invocation(path, args, env)] else old(started)
    {
      var built := BuildUp(options);
      if built.Err? {
        return Some(built.error);
      }
      var (args, env) := built.value;
      var r := ExecuteCommand(args, env, o);
      err := if r.Ok? then None else Some(r.error);
    }

    method Ping(target: string, count: int, o: RunOutcome) returns (r: Result<string, Error>)
      modifies this
      ensures PingCommand(target, count).Err? ==> r == Err(PingCommand(target, count).error) && started == old(started)
      ensures PingCommand(target, count).Ok? ==>
                r == ExecuteResult(PingCommand(target, count).value, o) &&
                started == old(started) + [Invocation(path, PingCommand(target, count).value, [])]
    {
      var bad := CheckTarget(target);
      if bad.Some? {
        return Err(InvalidTarget(bad.value));
      }
      if count < MinPingCount || count > MaxPingCount {
        return Err(BadPingCount);
      }
      PingCommandAccepted(target, count);
      r := ExecuteCommand(["ping", target, "-c", IntToString(count)], [], o);
    }

    method SetExitNode(nodeID: string, o: RunOutcome) returns (err: Option<Error>)
      modifies this
      ensures ExitNodeCommand(nodeID).Err? ==> err == Some(ExitNodeCommand(nodeID).error) && started == old(started)
      ensures ExitNodeCommand(nodeID).Ok? ==>
                var args := ExitNodeCommand(nodeID).value;
                err == (if ExecuteResult(args, o).Ok? then None else Some(ExecuteResult(args, o).error)) &&
                started == old(started) + [Invocation(path, args, [])]
    {
      var built := BuildExitNode(nodeID);
      if built.Err? {
        return Some(built.error);
      }
      ExitNodeBuilds(nodeID);
      var r := ExecuteCommand(built.value, [], o);
      err := if r.Ok? then None else Some(r.error);
    }

    method SetShieldsUp(enabled: bool, o: RunOutcome) returns (err: Option<Error>)
      modifies this
      ensures var args := ShieldsUpCommand(enabled);
              err == (if ExecuteResult(args, o).Ok? then None else Some(ExecuteResult(args, o).error)) &&
              started == old(started) + [Invocation(path, args, [])]
    {
      var r := ExecuteCommand(ShieldsUpCommand(enabled), [], o);
      err := if r.Ok? then None else Some(r.error);
    }

    /** IsAvailable: whether `tailscale version` runs without error. */
    method IsAvailable(o: RunOutcome) returns (available: bool)
      modifies this
      ensures available <==> o.end == Exited(0) &&
                             |Flatten(o.stdout)| <= MaxBufSize && |Flatten(o.stderr)| <= MaxBufSize
      ensures started == old(started) + [Invocation(path, ["version"], [])]
    {
      PlainArgsAccepted(["version"]);
      ExecuteOutcome(["version"], o);
      var r := ExecuteCommand(["version"], [], o);
      available := r.Ok?;
    }

    method ListPeers(o: RunOutcome, parse: string -> Result<TailscaleStatus, string>) returns (r: Result<seq<string>, Error>)
      modifies this
      ensures r == PeersResult(o, parse)
      ensures started == old(started) + [Invocation(path, ["status", "--json"], [])]
    {
      PlainArgsAccepted(["status", "--json"]);
      var out := ExecuteCommand(["status", "--json"], [], o);
      if out.Err? {
        return Err(StatusFailed(StatusFailed(out.error)));
      }
      var parsed := parse(out.value);
      if parsed.Err? {
        return Err(StatusFailed(StatusUnparsable(parsed.error)));
      }
      var names := CollectPeers(parsed.value.peers);
      return Ok(names);
    }
  }
}
