/**
 * The older copy of the CLI wrapper, which reports through a CLIResponse
 * (success flag, error text, stderr, data) instead of Go errors. Its
 * decisions are those of TailscaleCli: the same allowlist, argument checks,
 * validators and argument builders in the same order. What differs is the
 * texts it reports and the shape of its results, which this module gives.
 */
module LegacyCli {
  import opened Wrappers
  import opened Text
  import opened CliPolicy
  import opened Utils
  import opened TailscaleCli

  /** CLIResponse[T]; `data` holds Go's zero value of T unless the call succeeded. */
  datatype CLIResponse<T> = CLIResponse(success: bool, error: string, stderr: string, data: T)

  /** coalesce: the first string unless it is empty. */
  function Coalesce(s: string, fallback: string): (r: string)
    ensures s != "" ==> r == s
    ensures s == "" ==> r == fallback
    ensures fallback != "" ==> r != ""
  {
    if s != "" then s else fallback
  }

  function LegacyRejectionText(r: CommandRejection): string {
    match r
    case NoCommand => "no command specified"
    case NotAllowed(c) => "command '" + c + "' not allowed"
    case BadArgument(_, _, ArgTooLong(_)) => "command argument too long"
    case BadArgument(_, _, ArgHasMetachar) => "command argument contains invalid characters"
  }

  /** The error text of cmd.Run; the legacy limitWriter's overflow error does not wrap io.ErrShortWrite. */
  function LegacyRunErrorText(e: RunError): string {
    match e
    case StartError(reason) => reason
    case ExitError(code) => "exit status " + IntToString(code)
    case SignalError(sig) => "signal: " + sig
    case CopyError(OutputExceeds(limit)) => "output exceeds " + NatToString(limit) + " bytes"
  }

  const TimeoutText := "command timed out after 30s"

  /** The legacy ExecuteCommand. */
  function LegacyExecuteResult(args: seq<string>, o: RunOutcome): CLIResponse<string> {
    match CheckCommand(args)
    case Some(r) => CLIResponse(false, LegacyRejectionText(r), "", "")
    case None =>
      var stdout := TrimSpace(Utf8Decode(Capped(Flatten(WrittenStdout(o)), MaxBufSize)));
      var stderr := TrimSpace(Utf8Decode(Capped(Flatten(WrittenStderr(o)), MaxBufSize)));
      match RunErrorOf(o.end, CopyErrorOf(o))
      case None => CLIResponse(true, "", stderr, stdout)
      case Some(e) => CLIResponse(false, if o.deadlineExceeded then TimeoutText else LegacyRunErrorText(e), stderr, "")
  }

  /** The four validation failures carry these fixed texts and nothing else. */
  lemma LegacyRejectionTexts(args: seq<string>, o: RunOutcome)
    requires CheckCommand(args).Some?
    ensures var r := LegacyExecuteResult(args, o);
            !r.success && r.stderr == "" && r.data == "" &&
            (|args| == 0 ==> r.error == "no command specified") &&
            (|args| > 0 && args[0] !in AllowedCommands ==> r.error == "command '" + args[0] + "' not allowed") &&
            (|args| > 0 && args[0] in AllowedCommands ==>
               r.error == "command argument too long" || r.error == "command argument contains invalid characters")
  {
    if |args| > 0 && args[0] in AllowedCommands {
      CheckArgsFromNone(args, 0);
    }
  }

  /**
   * On success the data is the trimmed stdout and the error is empty; on
   * failure the error text is not empty (the system's reason for a failed
   * start never is) and stderr holds the trimmed stderr.
   */
  lemma LegacyExecuteOutcome(args: seq<string>, o: RunOutcome)
    requires CheckCommand(args).None?
    requires o.end.StartFailed? ==> o.end.reason != ""
    ensures var r := LegacyExecuteResult(args, o);
            (r.success <==> o.end == Exited(0) &&
                            |Flatten(o.stdout)| <= MaxBufSize && |Flatten(o.stderr)| <= MaxBufSize) &&
            (r.success ==> r.data == TrimSpace(Utf8Decode(Flatten(o.stdout))) && r.error == "") &&
            (!r.success ==> r.error != "" && r.data == "") &&
            r.stderr == TrimSpace(Utf8Decode(Capped(Flatten(WrittenStderr(o)), MaxBufSize)))
  {
    RunSucceeds(o);
    var e := RunErrorOf(o.end, CopyErrorOf(o));
    if e.None? {
      assert Capped(Flatten(o.stdout), MaxBufSize) == Flatten(o.stdout);
    } else {
      LegacyRunErrorTextNotEmpty(e.value);
      assert TimeoutText[0] == 'c';
    }
  }

  /** Only a start failure can have an empty text, and only when the system's reason is empty. */
  lemma LegacyRunErrorTextNotEmpty(e: RunError)
    requires e.StartError? ==> e.reason != ""
    ensures LegacyRunErrorText(e) != ""
  {
    match e {
      case StartError(_) =>
      case ExitError(_) => assert LegacyRunErrorText(e)[0] == 'e';
      case SignalError(_) => assert LegacyRunErrorText(e)[0] == 's';
      case CopyError(_) => assert LegacyRunErrorText(e)[0] == 'o';
    }
  }

  // ---------------------------------------------------------------------------
  // Texts of the validators
  // ---------------------------------------------------------------------------

  function LegacyTargetText(r: TargetRejection): string {
    match r
    case EmptyTarget => "invalid target specified"
    case DangerousChar(c) => "invalid character '" + [c] + "' in target"
    case PathPattern => "invalid path patterns in target"
    case PatternMismatch => "target contains invalid characters"
    case TargetTooLong => "target too long"
  }

  function LegacyInputText(r: InputRejection, field: string): string {
    match r
    case InputDangerousChar(c) => "invalid character '" + [c] + "' in " + field
    case InputTooLong => field + " too long"
  }

  function LegacyRouteText(r: RouteRejection): string {
    match r
    case BadRouteFormat(_, route) => "invalid route format: " + route
    case BadCidr(_, route) => "invalid CIDR route " + route + ": invalid CIDR address: " + route
  }

  /** The validation failures the argument builders report. */
  predicate IsInputError(e: Error) {
    e.InvalidLoginServer? || e.InvalidHostname? || e.InvalidRoutes? || e.InvalidAuthKey? ||
    e.InvalidTarget? || e.BadPingCount? || e.InvalidNodeID?
  }

  /** The legacy copy reports a validator's own text, without the current copy's prefixes. */
  function LegacyInputErrorText(e: Error): string
    requires IsInputError(e)
  {
    match e
    case InvalidLoginServer(r) => LegacyInputText(r, "loginServer")
    case InvalidHostname(r) => LegacyInputText(r, "hostname")
    case InvalidRoutes(r) => LegacyRouteText(r)
    case InvalidAuthKey(r) => LegacyInputText(r, "authKey")
    case InvalidTarget(r) => LegacyTargetText(r)
    case BadPingCount => "count must be an integer between 1 and 100"
    case InvalidNodeID(r) => LegacyTargetText(r)
  }

  /** A builder's failure, reported before anything runs. */
  function Refusal<T>(e: Error, zero: T): CLIResponse<T>
    requires IsInputError(e)
  {
    CLIResponse(false, LegacyInputErrorText(e), "", zero)
  }

  // ---------------------------------------------------------------------------
  // Operations
  // ---------------------------------------------------------------------------

  function LegacyUp(options: Option<UpOptions>, o: RunOutcome): CLIResponse<string> {
    match UpCommand(options)
    case Err(e) => UpFailsOnInput(options); Refusal(e, "")
    case Ok((args, _)) => LegacyExecuteResult(args, o)
  }

  /** Up's failures are always validation failures. */
  lemma UpFailsOnInput(options: Option<UpOptions>)
    ensures UpCommand(options).Err? ==> IsInputError(UpCommand(options).error)
  {
  }

  /** A hostname holding ';' fails with "invalid character ';' in hostname" before anything runs. */
  lemma LegacyUpSemicolonHostname(u: UpOptions, o: RunOutcome)
    requires u.loginServer == "" && u.hostname != "" && ';' in u.hostname
    ensures LegacyUp(Some(u), o) == CLIResponse(false, "invalid character ';' in hostname", "", "")
  {
    UpRefusesSemicolonHostname(u);
  }

  /** UpSimple: `up` followed by the caller's arguments, without validation of its own. */
  function LegacyUpSimple(args: seq<string>, o: RunOutcome): CLIResponse<string> {
    LegacyExecuteResult(["up"] + args, o)
  }

  /** UpSimple runs exactly when every extra argument passes the per-argument check. */
  lemma LegacyUpSimpleChecked(args: seq<string>)
    ensures CheckCommand(["up"] + args).None? <==> forall j :: 0 <= j < |args| ==> ArgProblemOf(args[j]) == None
  {
    var all := ["up"] + args;
    CommandAccepted(all);
    PlainArgAccepted("up");
    assert forall j :: 0 <= j < |args| ==> all[j + 1] == args[j];
    if forall j :: 0 <= j < |args| ==> ArgProblemOf(args[j]) == None {
      forall j | 0 <= j < |all| ensures ArgProblemOf(all[j]) == None {
        if j > 0 {
          assert all[j] == args[j - 1];
        }
      }
    }
  }

  function LegacyPing(target: string, count: int, o: RunOutcome): CLIResponse<string> {
    match PingCommand(target, count)
    case Err(e) => Refusal(e, "")
    case Ok(args) => LegacyExecuteResult(args, o)
  }

  /** Ping("") fails with "invalid target specified"; a count of 0 or 101 fails with the range message. */
  lemma LegacyPingRefusals(target: string, count: int, o: RunOutcome)
    ensures LegacyPing("", count, o) == CLIResponse(false, "invalid target specified", "", "")
    ensures CheckTarget(target).None? && (count == 0 || count == 101) ==>
            LegacyPing(target, count, o) == CLIResponse(false, "count must be an integer between 1 and 100", "", "")
  {
  }

  function LegacySetExitNode(nodeID: string, o: RunOutcome): CLIResponse<string> {
    match ExitNodeCommand(nodeID)
    case Err(e) => Refusal(e, "")
    case Ok(args) => LegacyExecuteResult(args, o)
  }

  function LegacySetShieldsUp(enabled: bool, o: RunOutcome): CLIResponse<string> {
    LegacyExecuteResult(ShieldsUpCommand(enabled), o)
  }

  /** IsAvailable: the `version` call's response with its success flag as the data. */
  function LegacyIsAvailable(o: RunOutcome): (r: CLIResponse<bool>)
    ensures r.data == r.success
    ensures r.success <==> o.end == Exited(0) &&
                           |Flatten(o.stdout)| <= MaxBufSize && |Flatten(o.stderr)| <= MaxBufSize
  {
    PlainArgsAccepted(["version"]);
    RunSucceeds(o);
    var resp := LegacyExecuteResult(["version"], o);
    CLIResponse(resp.success, resp.error, resp.stderr, resp.success)
  }

  /** GetStatus: a failed run keeps its stderr and gets "unknown error" if its text is empty. */
  function LegacyGetStatus(o: RunOutcome, parse: string -> Result<TailscaleStatus, string>): (r: CLIResponse<TailscaleStatus>)
    ensures !r.success ==> r.error != ""
  {
    var raw := LegacyExecuteResult(["status", "--json"], o);
    if !raw.success then CLIResponse(false, Coalesce(raw.error, "unknown error"), raw.stderr, TailscaleStatus([]))
    else match parse(raw.data)
      case Err(reason) => CLIResponse(false, "failed to parse status data: " + reason, "", TailscaleStatus([]))
      case Ok(st) => CLIResponse(true, "", "", st)
  }

  /** ListPeers: exactly the peers with a non-empty host name, or the status failure passed on. */
  function LegacyListPeers(o: RunOutcome, parse: string -> Result<TailscaleStatus, string>): (r: CLIResponse<seq<string>>)
    ensures var st := LegacyGetStatus(o, parse);
            r.success == st.success &&
            (r.success ==> r.data == NamedPeers(st.data.peers)) &&
            (!r.success ==> r.error == st.error && r.stderr == st.stderr && r.data == [])
  {
    var st := LegacyGetStatus(o, parse);
    if !st.success then CLIResponse(false, st.error, st.stderr, [])
    else CLIResponse(true, "", "", NamedPeers(st.data.peers))
  }

  /** The wrapper around one tailscale binary; `started` lists every process it has started. */
  class LegacyTailscaleCli {
    const path: string
    var started: seq<Invocation>

    constructor (path: string)
      ensures this.path == path && started == []
    {
      this.path := path;
      started := [];
    }

    method ExecuteCommand(args: seq<string>, env: seq<string>, o: RunOutcome) returns (r: CLIResponse<string>)
      modifies this
      ensures r == LegacyExecuteResult(args, o)
      ensures started == if CheckCommand(args).None? then old(started) + [Invocation(path, args, env)] else old(started)
    {
      var rejection := ValidateCommand(args);
      if rejection.Some? {
        return CLIResponse(false, LegacyRejectionText(rejection.value), "", "");
      }
      started := started + [Invocation(path, args, env)];
      var out, outErr := Capture(WrittenStdout(o), MaxBufSize);
      var errOut, errErr := Capture(WrittenStderr(o), MaxBufSize);
      var stderrText := TrimSpace(Utf8Decode(errOut));
      var copyErr := if outErr.Some? then outErr else errErr;
      var runErr := RunErrorOf(o.end, copyErr);
      if runErr.Some? {
        var text := LegacyRunErrorText(runErr.value);
        if o.deadlineExceeded {
          text := TimeoutText;
        }
        return CLIResponse(false, text, stderrText, "");
      }
      return CLIResponse(true, "", stderrText, TrimSpace(Utf8Decode(out)));
    }

    method Up(options: Option<UpOptions>, o: RunOutcome) returns (r: CLIResponse<string>)
      modifies this
      ensures r == LegacyUp(options, o)
      ensures UpCommand(options).Err? ==> started == old(started)
    {
      UpFailsOnInput(options);
      var built := BuildUp(options);
      if built.Err? {
        return Refusal(built.error, "");
      }
      var (args, env) := built.value;
      r := ExecuteCommand(args, env, o);
    }

    method Ping(target: string, count: int, o: RunOutcome) returns (r: CLIResponse<string>)
      modifies this
      ensures r == LegacyPing(target, count, o)
      ensures PingCommand(target, count).Err? ==> started == old(started)
    {
      var bad := CheckTarget(target);
      if bad.Some? {
        return Refusal(InvalidTarget(bad.value), "");
      }
      if count < MinPingCount || count > MaxPingCount {
        return Refusal(BadPingCount, "");
      }
      r := ExecuteCommand(["ping", target, "-c", IntToString(count)], [], o);
    }

    method IsAvailable(o: RunOutcome) returns (r: CLIResponse<bool>)
      modifies this
      ensures r == LegacyIsAvailable(o)
    {
      var resp := ExecuteCommand(["version"], [], o);
      r := CLIResponse(resp.success, resp.error, resp.stderr, resp.success);
    }

    method ListPeers(o: RunOutcome, parse: string -> Result<TailscaleStatus, string>) returns (r: CLIResponse<seq<string>>)
      modifies this
      ensures r == LegacyListPeers(o, parse)
    {
      var raw := ExecuteCommand(["status", "--json"], [], o);
      if !raw.success {
        return CLIResponse(false, Coalesce(raw.error, "unknown error"), raw.stderr, []);
      }
      var parsed := parse(raw.data);
      if parsed.Err? {
        return CLIResponse(false, "failed to parse status data: " + parsed.error, "", []);
      }
      var names := CollectPeers(parsed.value.peers);
      return CLIResponse(true, "", "", names);
    }
  }
}
