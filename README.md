# Tailscale MCP server — a Dafny model of its core

Tailscale MCP is an MCP server: it speaks JSON-RPC 2.0 over stdio or HTTP and exposes the Tailscale CLI and the Tailscale REST API as tools. This project models its decision logic in Dafny and proves properties of that model. That logic covers:

- which commands and arguments may reach the `tailscale` binary;
- how protocol messages are routed and answered;
- how the tool registry behaves;
- the server's lifecycle;
- the small helpers for configuration, the API, device types and logging.

JSON, regular expressions, process spawning and the network are not modelled. They enter as parameters: the decoded form of a message, an explicit predicate, or a given process outcome.

The modules follow the repository's files:

- **Text, Wrappers** — the Go standard-library string functions the code relies on, such as `strings.TrimSpace`, `strconv.Atoi`, `%d` and `%q`, each with its meaning stated. Also `Option`/`Result`, the model's stand-ins for nil values and `(value, error)` pairs.
- **CliPolicy** — the command-safety policy that both copies of the CLI wrapper share:
  - the 21-command allowlist;
  - the 1000-byte argument limit and the meta-characters refused in arguments;
  - the target check: 16 dangerous characters, path tricks, the hostname/IP pattern and the 253-byte limit;
  - the free-form input check;
  - the route check, with CIDR syntax as Go's `net.ParseCIDR` accepts it.

  Each check reports the first problem, in the order the code tests them.
- **TailscaleCli / LegacyCli** — the current and the legacy CLI wrapper as classes.
  - The child process is never run. A wrapper object records every process it would start, so "nothing is started for rejected input" is a postcondition.
  - The argument and environment builders for `up`, `ping`, `set --exit-node` and `set --shields-up` are modelled, with the auth key travelling only in the environment.
  - `ListPeers` and `IsAvailable` are modelled.
  - The legacy wrapper's `CLIResponse` and its error texts are modelled.
- **Utils** — the bounded output buffer `limitWriter`: a class over a byte buffer, with its invariant and the exact truncation it performs. The captured bytes are read as UTF-8 text the way `utf8.DecodeRune` reads them, with a round-trip proof against an encoder. Also the per-OS list of places where the binary is looked for.
- **Api, DeviceTypes** — the legacy REST client:
  - its base URL, tailnet default, headers and endpoint paths;
  - how a response is classified into a body or an `APIError`.

  Also the typed API values: the online and expiry tests, with the clock as a parameter; the list filters, written as loops; and the API error's text and status tests.
- **Config, LegacyConfig** — loading from the environment with its defaults and clamping, collect-all validation, the error texts, secret redaction, the sanitized copy and the level names.
- **Logging** — the logger's level, encoding and output selection, and the pairing of variadic key/value arguments into fields.
- **McpTypes** — the MCP protocol types:
  - error codes and the fixed error constructors;
  - the message factories;
  - the exact protocol-version check;
  - the ordered initialize-request validation.
- **PkgMcp, Registry, McpServer** — the public package's `BasicServer` and `AdvancedServer`; the tool registry, a class over a name→tool map; and `MCPServer`, which turns registry outcomes into protocol errors.
- **Dispatch, Stdio, HttpTransport** — message routing:
  - **Dispatch** holds the routing table both transports share.
  - **Stdio** models the stdio read loop: lines in, exactly one reply sent per non-blank line, each written as its body and a newline unless marshalling or a write fails, in which case the loop goes on.
  - **HttpTransport** models the HTTP transport: error-code to status mapping, the CORS middleware and preflight, the constant `/health` and `/info` endpoints, and the status recorder.
- **Lifecycle** — `TailscaleMCPServer`:
  - `New` with functional options applied in order;
  - the running flag shared by `StartStdio`, `StartHTTP` and `Shutdown`;
  - `ToolCount`.
- **Serve** — the serve command's flag checks, its run, and how a run's outcome becomes the exit code.

Where the written documentation and the code disagree, the model follows the code:

- Both transports reply to every non-empty line or request, including messages without an `id`. The code does no notification suppression.
- `ListToolNames` is documented as returning a sorted list (tailscale-mcp-server/internal/tools/registry.go:89) but does not sort. The model promises each name exactly once, in no particular order.
- `WithCustomRegistry` replaces the registry that `ToolCount` and `Shutdown` see. The default MCP server stays built over the original registry (tailscale-mcp-server/internal/server/server.go:44-53,80-90).

## Model

| member | source | states |
|---|---|---|
| Api.NewAPIClient | internal/tailscale/api.go:44-63 | the key is kept; an empty tailnet becomes "-"; the base URL loses one trailing "/" and always ends in "/api/v2" |
| Api.OneSlashDropped | internal/tailscale/api.go:56 | a base URL ending in "/" loses exactly that one slash before "/api/v2", so of two trailing slashes one stays |
| Api.BaseUrlOfDefault | internal/tailscale/api.go:56 | the default base URL, with or without a trailing "/", gives https://api.tailscale.com/api/v2 |
| Api.Headers | internal/tailscale/api.go:82-86 | Content-Type is always application/json; Authorization is set exactly when the key is non-empty, as "Bearer " and the key |
| Api.PathShapes | internal/tailscale/api.go:163-362 | device endpoints are under /device/<id>, the others under /tailnet/<tailnet>; DeleteAuthKey is /tailnet/<t>/keys/<k>; the five read endpoints use GET; every URL starts with the base URL |
| Api.UrlOfConfiguredClient | internal/tailscale/api.go:56-78 | the request URL is the configured base URL, "/api/v2" and the endpoint path |
| Api.ResponseClassification | internal/tailscale/api.go:104-131 | a status below 400 returns the body; 400 or more is an API error whose message is the body's "message", else its "error", else "HTTP <code>"; a body that cannot be read is an error; success exactly when the body is read and the status is below 400 |
| Api.SuccessResponse | internal/tailscale/api.go:135-141 | success with the given data and status and no error text |
| Api.ErrorResponse | internal/tailscale/api.go:144-157 | never a success and never data; an API error gives its message and status, any other error its text and status 0 |
| Api.CallOutcomes | internal/tailscale/api.go:162-374 | each endpoint succeeds exactly when the request is made, the body read, the status below 400 and the data decoded; success keeps the status; error statuses are reported as they came; failures before a response have status 0 |
| Api.TestConnectionData | internal/tailscale/api.go:303-318 | a successful connection test carries exactly {"status": "connected"}, and it succeeds exactly when the tailnet request does |
| PkgMcp.ResponseHelpers | pkg/mcp/types.go:107-127 | both helpers carry one "text" block holding the text; only the error response sets isError (to true), so an error and a success response never coincide |
| PkgMcp.FirstNamed | pkg/mcp/server.go:62-70 | the index found holds the name and no earlier tool does; none is found only when no tool has the name |
| PkgMcp.BasicCallOutcomes | pkg/mcp/server.go:62-78 | CallTool answers with an error response exactly when no tool has the name; a registered tool's name succeeds; registering leaves every other name's answer unchanged |
| PkgMcp.InitializeOutcomes | pkg/mcp/server.go:33-52 | Initialize fails exactly when validation does, with "initialization failed: " before the message; otherwise it returns the protocol version, the server identity and listChanged true |
| PkgMcp.BasicServer.constructor | pkg/mcp/server.go:17-25 | the given name and version, and no tools |
| PkgMcp.BasicServer.RegisterTool | pkg/mcp/server.go:28-30 | the tool is appended; earlier tools, duplicates included, stay in order |
| PkgMcp.BasicServer.CallTool | pkg/mcp/server.go:62-78 | the linear search's answer is BasicCallResult for the current tools |
| PkgMcp.AdvancedCallOutcomes | pkg/mcp/server.go:115-128 | an unknown name is "Tool '<n>' not found" and a failing handler "Tool execution failed: ..." as error responses; a handler's response passes through, a nil one included, and the answer is nil only then; the last handler under a name is the one run |
| PkgMcp.AdvancedServer.constructor | pkg/mcp/server.go:101-107 | a new basic server with the identity and no tools, and no handlers |
| PkgMcp.AdvancedServer.RegisterToolWithHandler | pkg/mcp/server.go:109-112 | the tool is appended and the handler filed under its name, replacing any earlier one |
| PkgMcp.RegisterTwice | pkg/mcp/server.go:109-128 | registering one tool twice lists it twice and calls only the second handler |
| TailscaleCli.CLIErrorText | tailscale-mcp-server/internal/tailscale/cli.go:82-87 | with a cause the text is "tailscale <command> failed: <cause>"; without one it names the exit code and the stderr |
| TailscaleCli.ValidateCommand | tailscale-mcp-server/internal/tailscale/cli.go:153-174 | the scan's rejection is CheckCommand's: empty list, then the allowlist, then per argument in index order the length and then the metacharacters |
| TailscaleCli.RefusedCommandIgnoresOutcome | tailscale-mcp-server/internal/tailscale/cli.go:153-174 | a refused command fails with its rejection whatever the child would have done, so nothing run can affect it |
| TailscaleCli.ExecuteOutcome | tailscale-mcp-server/internal/tailscale/cli.go:190-229 | an accepted command succeeds exactly when the child exits 0 and neither stream overflows, and then yields the trimmed stdout, read as UTF-8; every failure is a CLIError for the first argument with its cause set, the timeout cause exactly when the deadline passed |
| TailscaleCli.RunSucceeds | tailscale-mcp-server/internal/tailscale/cli.go:199-227 | the run has no error exactly when the child exits 0 and both streams fit the 10 MB limit |
| TailscaleCli.ExecuteErrorText | tailscale-mcp-server/internal/tailscale/cli.go:207-226 | an ExecuteCommand failure always reads "tailscale <command> failed: <cause>" |
| TailscaleCli.UpAccepted | tailscale-mcp-server/internal/tailscale/cli.go:269-319 | options that pass every check give the full argument list and the environment |
| TailscaleCli.BuildUpHead | tailscale-mcp-server/internal/tailscale/cli.go:270-294 | a failure is Up's own first failure; otherwise the arguments are "up", the login server, the accept flags and the hostname, with both strings checked |
| TailscaleCli.BuildUp | tailscale-mcp-server/internal/tailscale/cli.go:269-319 | the appends build exactly UpCommand: the first failing check or the full arguments and environment |
| TailscaleCli.UpWithoutOptions | tailscale-mcp-server/internal/tailscale/cli.go:269-317 | nil options run exactly `up` with no extra environment |
| TailscaleCli.UpAuthKeyOnlyInEnv | tailscale-mcp-server/internal/tailscale/cli.go:303-310 | the auth key never changes the arguments; the environment is exactly TS_AUTHKEY=<key> when a key is given and empty otherwise |
| TailscaleCli.UpRefusesBadAuthKey | tailscale-mcp-server/internal/tailscale/cli.go:303-306 | an auth key the input check refuses fails Up with "invalid auth key" even when every other option is valid |
| TailscaleCli.UpFlagOrder | tailscale-mcp-server/internal/tailscale/cli.go:272-283 | the arguments start with "up", then the login server when given, else --accept-routes when set |
| TailscaleCli.UpRefusesSemicolonHostname | tailscale-mcp-server/internal/tailscale/cli.go:289-292 | a hostname with ';' fails naming the character and the hostname field |
| TailscaleCli.PingBuilds | tailscale-mcp-server/internal/tailscale/cli.go:334-344 | Ping builds exactly for an accepted target and a count in 1..100, and the command is ping <target> -c <count>; the count error only for an accepted target |
| TailscaleCli.PingCommandAccepted | tailscale-mcp-server/internal/tailscale/cli.go:334-344 | a command Ping builds always passes ExecuteCommand's checks |
| TailscaleCli.BuildExitNode | tailscale-mcp-server/internal/tailscale/cli.go:358-368 | the appends build exactly ExitNodeCommand |
| TailscaleCli.ExitNodeBuilds | tailscale-mcp-server/internal/tailscale/cli.go:358-371 | "" gives set --exit-node=; any other id builds exactly when it is an accepted target; every built command passes ExecuteCommand's checks |
| TailscaleCli.PlainArgsAccepted | tailscale-mcp-server/internal/tailscale/cli.go:153-174 | an allowlisted command whose arguments are short and free of metacharacters is accepted |
| TailscaleCli.ShieldsUpCommand | tailscale-mcp-server/internal/tailscale/cli.go:375-381 | set --shields-up followed by "true" exactly when enabled, and ExecuteCommand accepts it |
| TailscaleCli.NamedPeers | tailscale-mcp-server/internal/tailscale/cli.go:469-476 | no more names than peers, and none is empty |
| TailscaleCli.NamedPeersExact | tailscale-mcp-server/internal/tailscale/cli.go:469-476 | a name is listed exactly when it is non-empty and some peer has it |
| TailscaleCli.CollectPeers | tailscale-mcp-server/internal/tailscale/cli.go:469-476 | the loop collects exactly NamedPeers |
| TailscaleCli.PeersFailureWrapsTwice | tailscale-mcp-server/internal/tailscale/cli.go:463-467 | a failed status run reaches ListPeers' caller wrapped twice in "failed to get status: " |
| TailscaleCli.StatusFailedText | tailscale-mcp-server/internal/tailscale/cli.go:240 | the wrapped status error reads "failed to get status: " and the cause |
| TailscaleCli.Cli.constructor | tailscale-mcp-server/internal/tailscale/cli.go:69-72 | the binary's path, and nothing started |
| TailscaleCli.Cli.ExecuteCommand | tailscale-mcp-server/internal/tailscale/cli.go:148-230 | the result is ExecuteResult; a process is started, with these arguments and environment, exactly when the checks pass; the output text is the captured bytes read as UTF-8 |
| TailscaleCli.Cli.Up | tailscale-mcp-server/internal/tailscale/cli.go:269-319 | a failing check returns its error and starts nothing; otherwise the built command runs with the auth key in its environment |
| TailscaleCli.Cli.Ping | tailscale-mcp-server/internal/tailscale/cli.go:334-345 | a bad target or count starts nothing; otherwise ping runs and its result, the UTF-8 text of its output, is returned |
| TailscaleCli.Cli.SetExitNode | tailscale-mcp-server/internal/tailscale/cli.go:358-372 | a bad node id starts nothing; otherwise the set command runs |
| TailscaleCli.Cli.SetShieldsUp | tailscale-mcp-server/internal/tailscale/cli.go:375-382 | the shields-up command runs and its failure is returned |
| TailscaleCli.Cli.IsAvailable | tailscale-mcp-server/internal/tailscale/cli.go:385-388 | available exactly when `version` exits 0 without overflowing |
| TailscaleCli.Cli.ListPeers | tailscale-mcp-server/internal/tailscale/cli.go:463-479 | status --json runs once and the result is the named peers or the wrapped status error |
| CliPolicy.ArgProblemOf | tailscale-mcp-server/internal/tailscale/cli.go:164-174 | an argument has no problem exactly when its byte length is at most 1000 and it has none of the shell metacharacters; a length problem carries the argument's byte length |
| CliPolicy.CheckArgsFromNone | tailscale-mcp-server/internal/tailscale/cli.go:164-174 | the per-argument scan finds nothing exactly when no argument from the start index on has a problem, and what it reports is always a bad argument |
| CliPolicy.CheckArgsFromFirst | tailscale-mcp-server/internal/tailscale/cli.go:164-174 | the scan reports the first offending index with that argument and its problem, every earlier argument being acceptable |
| CliPolicy.MetacharMembership | tailscale-mcp-server/internal/tailscale/cli.go:171 | the refused argument characters are exactly ; & \| ` $ ( ) { } [ ] < > |
| CliPolicy.PlainArgAccepted | tailscale-mcp-server/internal/tailscale/cli.go:164-174 | a short argument of letters, digits and the flag punctuation always passes the per-argument check |
| CliPolicy.CommandAccepted | tailscale-mcp-server/internal/tailscale/cli.go:153-174 | a command is let through exactly when the argument list is non-empty, its first element is one of the 21 allowlisted subcommands and every argument passes |
| CliPolicy.CommandRejectsFirstBadArgument | tailscale-mcp-server/internal/tailscale/cli.go:153-174 | a bad-argument refusal happens only after the allowlist passed, and names the first argument with a problem and that problem |
| CliPolicy.FirstListed | tailscale-mcp-server/internal/tailscale/cli.go:398-403 | the character reported is the first of the list, in list order, that occurs in the string; none is reported exactly when no listed character occurs |
| CliPolicy.FirstListedHead | tailscale-mcp-server/internal/tailscale/cli.go:398-403 | when the list's first character occurs it is the one reported |
| CliPolicy.FirstListedSkip | tailscale-mcp-server/internal/tailscale/cli.go:398-403 | a first character that does not occur is passed over for the rest of the list |
| CliPolicy.CheckTarget | tailscale-mcp-server/internal/tailscale/cli.go:391-420 | a target is refused as empty exactly when it is empty, and a dangerous-character refusal names a character of the list that occurs in the target |
| CliPolicy.DottedLabelsShape | tailscale-mcp-server/internal/tailscale/cli.go:39 | a dotted hostname starts with a letter or digit, has only letters, digits, hyphens and dots, and never two dots in a row |
| CliPolicy.PatternExcludesDangerous | tailscale-mcp-server/internal/tailscale/cli.go:39 | a string matching the target pattern has none of the dangerous characters, no "..", no leading "/" and no "~" |
| CliPolicy.TargetAccepted | tailscale-mcp-server/internal/tailscale/cli.go:391-420 | a target is accepted exactly when it is non-empty, matches the anchored pattern and is at most 253 bytes long |
| CliPolicy.AcceptedTargetIsSafeArgument | tailscale-mcp-server/internal/tailscale/cli.go:391-420 | an accepted target also passes ExecuteCommand's per-argument check |
| CliPolicy.StringInputChecks | tailscale-mcp-server/internal/tailscale/cli.go:423-438 | an input is accepted exactly when it has none of the twelve dangerous characters and is at most 1000 bytes; the length is refused only when no character was, and a character refusal names one that occurs |
| CliPolicy.AcceptedInputIsSafeArgument | tailscale-mcp-server/internal/tailscale/cli.go:423-438 | an accepted input without brackets passes ExecuteCommand's per-argument check |
| CliPolicy.BracketInputPassesInputCheckOnly | tailscale-mcp-server/internal/tailscale/cli.go:425 | an input with a bracket that the input check lets through is still refused by ExecuteCommand for its characters |
| CliPolicy.BracketedAddressAccepted | tailscale-mcp-server/internal/tailscale/cli.go:423-438 | the input check accepts "[::1]", which has a bracket |
| CliPolicy.DoubleColonAt | tailscale-mcp-server/internal/tailscale/cli.go:454 | the position returned holds "::" and no earlier position does; -1 exactly when there is no "::" |
| CliPolicy.FirstFailing | tailscale-mcp-server/internal/tailscale/cli.go:442-459 | the index returned is the first from the start whose element fails the test; none exactly when every element passes |
| CliPolicy.RoutesAccepted | tailscale-mcp-server/internal/tailscale/cli.go:441-460 | the routes are accepted exactly when every one is a default route or matches the CIDR pattern and parses |
| CliPolicy.RoutesRejectFirst | tailscale-mcp-server/internal/tailscale/cli.go:441-460 | a refusal names the first unacceptable route and its index, as a format error exactly when it does not match the CIDR pattern |
| CliPolicy.IPv4PrefixOver32Refused | tailscale-mcp-server/internal/tailscale/cli.go:454-457 | a dotted quad with a two-digit prefix above 32 matches the CIDR pattern but does not parse, so it is not acceptable |
| CliPolicy.IPv4PrefixOver32Reported | tailscale-mcp-server/internal/tailscale/cli.go:441-460 | such a route alone is reported as an invalid CIDR at index 0 |
| CliPolicy.RouteWithoutSlashRefused | tailscale-mcp-server/internal/tailscale/cli.go:441-460 | a route that is not a default route and has no slash is reported as a format error at its index |
| CliPolicy.TargetDangerousExamples | tailscale-mcp-server/internal/tailscale/cli_test.go:140-151 | "host;evil" is refused for ';' and "host\|evil" for '\|' |
| CliPolicy.LongTargetRefused | tailscale-mcp-server/internal/tailscale/cli.go:414-417 | a run of more than 253 letters is refused for its length alone |
| Config.Load | tailscale-mcp-server/internal/config/config.go:44-81 | Load gives the configuration the defaults and the five variables determine, and never fails |
| Config.TrimmedOrShape | tailscale-mcp-server/internal/config/config.go:56-78 | a string variable either leaves the current value, when it is blank, or replaces it by its trimmed, non-empty self |
| Config.FromVarsShape | tailscale-mcp-server/internal/config/config.go:48-78 | the mode is stdio, the level lies in 0..3, the base URL is never empty, the key, tailnet and log file are the trimmed variables, and a blank base URL leaves the public API's address |
| Config.LoadedShape | tailscale-mcp-server/internal/config/config.go:44-81 | the same, stated for the named environment variables TAILSCALE_API_KEY, TAILSCALE_TAILNET, TAILSCALE_API_BASE_URL and MCP_SERVER_LOG_FILE |
| Config.UnsetVariable | tailscale-mcp-server/internal/config/config.go:56-78 | an unset variable leaves the current value, for strings and for the level |
| Config.EmptyEnvironment | tailscale-mcp-server/internal/config/config.go:48-53 | with no variable set the configuration is the defaults: empty key and tailnet, the public API's address, level 1, no log file, stdio |
| Config.LogLevelApplied | tailscale-mcp-server/internal/config/config.go:68-74 | LOG_LEVEL is taken exactly when the whole untrimmed value reads as an integer from 0 to 3; otherwise the level stays 1, as it does for " 2" |
| Config.ValidationErrorShape | tailscale-mcp-server/internal/config/config.go:36-41 | the text starts with "invalid <field>" and ends with ": <message>"; the quoted value appears only when there is one |
| Text.QuotePlain | tailscale-mcp-server/internal/config/config.go:38 | %q of a value without quotes, backslashes or control characters is the value itself between double quotes |
| Text.QuoteBodyPrintable | tailscale-mcp-server/internal/config/config.go:38 | %q of any value holds no control character, so a quoted value never breaks the error text's line |
| Config.LogDir | tailscale-mcp-server/internal/config/config.go:204-209 | the directory checked is "." or a non-empty prefix of the path followed by "/" |
| Config.ReportsConcat | tailscale-mcp-server/internal/config/config.go:85-126 | a field is reported by the appended error list exactly when one of the two parts reports it |
| Config.Validate | tailscale-mcp-server/internal/config/config.go:84-133 | the outcome is nil exactly when no check fails, and otherwise carries every collected error in check order |
| Config.OneProblem | tailscale-mcp-server/internal/config/config.go:88-126 | one check's contribution reports its own field exactly when the check fails, and no other field |
| Config.ReportsOf | tailscale-mcp-server/internal/config/config.go:88-126 | the fields reported are exactly those of the failing checks: a non-empty unparsable URL, a level outside 0..3, a mode other than stdio and http, a set log file whose directory is not one |
| Config.ValidateCollectsAll | tailscale-mcp-server/internal/config/config.go:84-133 | each check is reported exactly when it fails, whatever the other checks give |
| Config.ValidateCounts | tailscale-mcp-server/internal/config/config.go:84-133 | there is one error per failing check, so the outcome is nil exactly when every check passes, and a bad mode yields the error "must be one of: stdio, http" with the mode as its value |
| Config.ModeMessage | tailscale-mcp-server/internal/config/config.go:108-113 | joining the valid modes with ", " spells "stdio, http" |
| Config.LoadedConfigProblems | tailscale-mcp-server/internal/config/config.go:44-133 | a loaded configuration is never refused for its level or mode, and passes validation when no log file is set and the URL parses |
| Config.Texts | tailscale-mcp-server/internal/config/config.go:145-148 | one text per error, each the error's own text, in order |
| Config.MultiError | tailscale-mcp-server/internal/config/config.go:140-150 | the loop collecting the messages yields the multi-error text |
| Config.MultiErrorMentionsEach | tailscale-mcp-server/internal/config/config.go:140-150 | one error reads as itself; otherwise the text starts with "multiple validation errors: "; every error's text appears in it |
| Config.Redact | tailscale-mcp-server/internal/config/config.go:184-189 | the length is kept; a secret of at most eight characters becomes all stars, a longer one keeps its first and last four characters and stars the rest |
| Config.RedactHidesMiddle | tailscale-mcp-server/internal/config/config.go:184-189 | every character outside the kept ends is a star, so redaction changes any secret that has a non-star in the hidden part |
| Config.SanitizedCopy | tailscale-mcp-server/internal/config/config.go:175-181 | only the API key changes, into its redaction of the same length when set, so the copy has credentials exactly when the original does |
| Config.LevelName | tailscale-mcp-server/internal/config/config.go:158-171 | levels 0 to 3 are named debug, info, warn and error; any other level is named info |
| Config.LevelNamesDistinct | tailscale-mcp-server/internal/config/config.go:158-171 | distinct levels in range have distinct names |
| DeviceTypes.DeviceStatus | tailscale-mcp-server/internal/tailscale/types.go:37-43 | the device's status word is "authorized" exactly when it is authorized and "unauthorized" otherwise |
| DeviceTypes.KeyStatus | tailscale-mcp-server/internal/tailscale/types.go:138-146 | the key's status is "valid" exactly when the key is valid, "revoked" exactly when revoked, and "expired" exactly when expired but not revoked |
| DeviceTypes.InvalidStaysInvalid | tailscale-mcp-server/internal/tailscale/types.go:128-135 | a key invalid at one moment is invalid at every later one |
| DeviceTypes.Keep | tailscale-mcp-server/internal/tailscale/types.go:184-222 | the filter is no longer than the list and every element kept passes the test |
| DeviceTypes.KeepMembers | tailscale-mcp-server/internal/tailscale/types.go:184-222 | an element is kept exactly when it is in the list and passes the test |
| DeviceTypes.KeepAppend | tailscale-mcp-server/internal/tailscale/types.go:184-222 | filtering keeps the list's order: the filter of a concatenation is the concatenation of the filters |
| DeviceTypes.KeepAll | tailscale-mcp-server/internal/tailscale/types.go:184-222 | a list whose every element passes is kept whole |
| DeviceTypes.Filter | tailscale-mcp-server/internal/tailscale/types.go:184-222 | the appending loop yields exactly the order-preserving filter |
| DeviceTypes.AuthorizedDevices | tailscale-mcp-server/internal/tailscale/types.go:184-193 | the result is the authorized devices, in list order |
| DeviceTypes.OnlineDevices | tailscale-mcp-server/internal/tailscale/types.go:195-204 | the result is the devices online at the given moment, in list order |
| DeviceTypes.ValidKeys | tailscale-mcp-server/internal/tailscale/types.go:211-222 | the result is the keys valid at the given moment, in list order |
| DeviceTypes.FiltersExact | tailscale-mcp-server/internal/tailscale/types.go:179-222 | the three filters return exactly the listed elements that pass; a key kept later was kept earlier; no device filter returns more than Count |
| DeviceTypes.ApiErrorTextShape | tailscale-mcp-server/internal/tailscale/types.go:233-241 | the text starts with the operation and status and ends with the message; the request id appears only when there is one |
| DeviceTypes.StatusTests | tailscale-mcp-server/internal/tailscale/types.go:243-261 | the four status tests are mutually exclusive and together hold exactly for 401, 403, 404 and 429 |
| Dispatch.HandleMessage | tailscale-mcp-server/internal/server/stdio.go:73-107 | every message gets exactly one reply, a result or an error and never both; it carries the message's id, and a message that does not decode as a JSON object (or as null) gets a parse error with no id |
| Dispatch.RoutingRefusals | tailscale-mcp-server/internal/server/stdio.go:86-196 | a non-string method is an invalid request, an absent or unknown method is "method not found" naming it, initialize and tools/call without params are "missing params", and a typed decode failure is invalid params carrying its text |
| Dispatch.RoutingSuccesses | tailscale-mcp-server/internal/server/stdio.go:109-196 | tools/list with or without params replies with the server's listing, shutdown with the empty object when the server returns nil, initialize and tools/call with the server's response |
| Dispatch.FailuresPassThrough | tailscale-mcp-server/internal/server/stdio.go:120-191 | an MCP error in a server failure's chain is passed through unchanged; any other failure becomes an internal error with its text, or for tools/call a tool execution error naming the tool |
| Dispatch.DispatchOntoMcpServer | tailscale-mcp-server/internal/mcp/server.go:27-86 | over MCPServer, a tools/call for an unregistered tool is answered ToolNotFound, a failing tool ToolExecution with the failure's text, and a refused initialize with the validator's error |
| HttpTransport.StatusTable | tailscale-mcp-server/internal/server/http.go:286-302 | parse, invalid-request and invalid-params codes give 400, method-not-found and tool-not-found give 404, every other code 500 |
| HttpTransport.ConstructorStatuses | tailscale-mcp-server/internal/server/http.go:286-302 | each error constructor's code maps to its fixed status: 400 for the malformed-request errors, 404 for the not-found errors, 500 for internal, tool execution and protocol errors |
| HttpTransport.PostMcp | tailscale-mcp-server/internal/server/http.go:96-137 | POST /mcp replies with the very reply the shared routing gives, with status 200 exactly when it is a result and the mapped status otherwise; a body that does not decode is a 400 parse error with no id |
| HttpTransport.Preflight | tailscale-mcp-server/internal/server/http.go:314-328 | OPTIONS /mcp is answered 200 with the CORS headers and no body, whatever the body and the server |
| HttpTransport.CorsOnEveryRoute | tailscale-mcp-server/internal/server/http.go:314-328 | every routed response carries the four CORS headers, allowing any origin |
| HttpTransport.StaticEndpoints | tailscale-mcp-server/internal/server/http.go:241-268 | /health and /info are 200 and never consult the server: the health fields, and the static identity "dev" with protocol 2024-11-05 and listChanged false |
| HttpTransport.ToolCallStatuses | tailscale-mcp-server/internal/server/http.go:193-218 | over MCPServer, a tools/call for an unregistered tool is a 404 and one whose tool fails is a 500 |
| HttpTransport.StartResult | tailscale-mcp-server/internal/server/http.go:63-93 | Start never returns http.ErrServerClosed, and returns context.Canceled exactly when the context was cancelled and the graceful shutdown succeeded |
| HttpTransport.StatusRecorder.WriteHeader | tailscale-mcp-server/internal/server/http.go:357-360 | the wrapper records the status and forwards the call to the wrapped writer |
| HttpTransport.LoggedStatus | tailscale-mcp-server/internal/server/http.go:331-349 | the status logged is the last one written, or 200 when none was, and every write is forwarded |
| HttpTransport.LoggedStatusOfRouted | tailscale-mcp-server/internal/server/http.go:331-349 | for a routed request other than the preflight, whose response writes its one status, the logged status is that status |
| HttpTransport.StatusRecorder.constructor | tailscale-mcp-server/internal/server/http.go:336 | the wrapper starts at status 200 and has forwarded nothing |
| LegacyCli.Coalesce | internal/tailscale/cli.go:232-237 | a non-empty string is kept, an empty one replaced by the fallback, so a non-empty fallback never gives an empty result |
| LegacyCli.LegacyRejectionTexts | internal/tailscale/cli.go:113-146 | a refused command fails with no stderr and no data, with "no command specified", "command '<c>' not allowed", or one of the two fixed argument texts |
| LegacyCli.LegacyExecuteOutcome | internal/tailscale/cli.go:148-203 | an accepted command succeeds exactly when the child exits 0 and neither stream overflows, with the trimmed stdout, read as UTF-8, as data and no error; a failure has a non-empty error and no data; stderr is always the trimmed captured stderr, read as UTF-8 |
| LegacyCli.LegacyRunErrorTextNotEmpty | internal/tailscale/cli.go:178-191 | the error text of a failed run is never empty, given that a failed start has a reason |
| LegacyCli.UpFailsOnInput | internal/tailscale/cli.go:287-348 | Up fails before running only with a validation failure of the login server, hostname, routes or auth key |
| LegacyCli.LegacyUpSemicolonHostname | internal/tailscale/cli.go:310-318 | a hostname holding ';' fails with "invalid character ';' in hostname" and nothing runs |
| LegacyCli.LegacyUpSimpleChecked | internal/tailscale/cli.go:351-354 | UpSimple runs exactly when every extra argument passes the per-argument check |
| LegacyCli.LegacyPingRefusals | internal/tailscale/cli.go:367-384 | Ping("") fails with "invalid target specified"; an accepted target with count 0 or 101 fails with the range message |
| LegacyCli.LegacyIsAvailable | internal/tailscale/cli.go:425-433 | the data is the success flag, which holds exactly when "version" exits 0 without overflow |
| LegacyCli.LegacyGetStatus | internal/tailscale/cli.go:244-268 | a failed status never has an empty error: an empty run error becomes "unknown error" |
| LegacyCli.LegacyListPeers | internal/tailscale/cli.go:508-530 | ListPeers succeeds exactly when GetStatus does, then gives the peers with a non-empty host name; a failure passes the status's error and stderr on with no data |
| LegacyCli.LegacyTailscaleCli.constructor | internal/tailscale/cli.go:103 | the wrapper keeps the binary path and has started nothing |
| LegacyCli.LegacyTailscaleCli.ExecuteCommand | internal/tailscale/cli.go:107-203 | the response is the legacy outcome, its texts the output bytes read as UTF-8, and a process is started exactly when validation passes |
| LegacyCli.LegacyTailscaleCli.Up | internal/tailscale/cli.go:287-348 | the response is the legacy Up outcome, its text the UTF-8 reading of the output, and nothing is started when an option is refused |
| LegacyCli.LegacyTailscaleCli.Ping | internal/tailscale/cli.go:367-384 | the response is the legacy Ping outcome, its text the UTF-8 reading of the output, and nothing is started when the target or count is refused |
| LegacyCli.LegacyTailscaleCli.IsAvailable | internal/tailscale/cli.go:425-433 | the response is the legacy availability outcome |
| LegacyCli.LegacyTailscaleCli.ListPeers | internal/tailscale/cli.go:508-530 | the response is the legacy peer listing |
| LegacyConfig.Load | internal/config/config.go:28-66 | Load gives the configuration the defaults and the variables determine, and never fails |
| LegacyConfig.LoadedShape | internal/config/config.go:28-66 | port 8080, mode stdio, a level in 0..3 read as the current loader reads it, and the other variables exactly as set, surrounding white space included |
| LegacyConfig.ValueOrTrimmed | internal/config/config.go:41-64 | on a value without surrounding white space, the untrimmed and trimmed ways of reading a variable agree |
| LegacyConfig.AgreesWithCurrentLoader | internal/config/config.go:28-66 | on an environment whose values carry no surrounding white space, the legacy and current loaders agree on every shared field |
| LegacyConfig.PaddedKeyKept | internal/config/config.go:41-43 | a key padded with spaces is kept padded by the legacy loader and trimmed by the current one |
| LegacyConfig.Validate | internal/config/config.go:69-73 | nothing is ever refused |
| LegacyConfig.SanitizedCopy | internal/config/config.go:98-104 | only the API key changes, into its redaction of the same length when set, so credentials are kept exactly when present |
| LegacyConfig.LogLevelString | internal/config/config.go:81-95 | levels 0 to 3 are named debug, info, warn and error; any other level is named info |
| Lifecycle.FirstFailureIsEarliest | tailscale-mcp-server/internal/server/server.go:93-97 | the options fail exactly when one of them has a nil argument, and then with the error of the earliest such option |
| Lifecycle.FirstFailureSticks | tailscale-mcp-server/internal/server/server.go:93-97 | once a prefix of the options fails, the whole list fails with that error whatever follows |
| Lifecycle.LastRegistryInjected | tailscale-mcp-server/internal/server/server.go:44-53 | an injected registry is the argument of one of the registry options |
| Lifecycle.LastOptionWins | tailscale-mcp-server/internal/server/server.go:32-53 | the last non-nil option of each kind wins, and without an option of a kind the default of that kind stays |
| Lifecycle.TailscaleMCPServer.constructor | tailscale-mcp-server/internal/server/server.go:80-90 | the server holds the given configuration, registry and MCP server and is not running |
| Lifecycle.TailscaleMCPServer.ApplyOption | tailscale-mcp-server/internal/server/server.go:32-53 | a nil argument is refused with its option's message and changes nothing; otherwise only the injected field changes |
| Lifecycle.TailscaleMCPServer.ApplyOptions | tailscale-mcp-server/internal/server/server.go:92-97 | the options are applied in order up to the first failure, whose error is returned; on success the last injected server and registry are held |
| Lifecycle.TailscaleMCPServer.StartStdio | tailscale-mcp-server/internal/server/server.go:103-122 | refused while running; otherwise the stdio loop runs over the held MCP server, its stop is returned, and the running flag ends as it started |
| Lifecycle.TailscaleMCPServer.StartHTTP | tailscale-mcp-server/internal/server/server.go:125-144 | refused while running; otherwise the HTTP server's stop error is returned and the running flag ends as it started |
| Lifecycle.TailscaleMCPServer.Shutdown | tailscale-mcp-server/internal/server/server.go:147-171 | nothing happens unless running; a failing MCP server shutdown is wrapped and leaves the server running with its tools; otherwise the registry is emptied and the flag cleared |
| Lifecycle.TailscaleMCPServer.ToolCount | tailscale-mcp-server/internal/server/server.go:191-195 | the count is the number of distinct tool names in the held registry |
| Lifecycle.New | tailscale-mcp-server/internal/server/server.go:56-100 | a nil configuration, a configuration refused by validation (every problem in the message), a failing CLI and the first failing option are errors in that order; otherwise the server is idle with the configuration, the last injected server or a fresh default tailscale-mcp-server 0.1.0 over the built-in tools, and the last injected registry, which the default server then does not serve |
| Logging.LevelOfParam | tailscale-mcp-server/internal/logger/logger.go:54-67 | the parameter's level is always debug, info, warn or error, and info for any value outside 0..3 |
| Logging.Encoding | tailscale-mcp-server/internal/logger/logger.go:77-82 | the encoding is always json or console |
| Logging.LevelSelection | tailscale-mcp-server/internal/logger/logger.go:43-68 | without LOG_LEVEL the parameter decides by the 0..3 table; with LOG_LEVEL the parameter is ignored and an unreadable name gives info |
| Logging.NamesAreLowerCase | tailscale-mcp-server/internal/logger/logger.go:44-51 | every level name zap reads is already lower case |
| Logging.ParseIgnoresCase | tailscale-mcp-server/internal/logger/logger.go:44-51 | a level name is read the same whatever its case |
| Logging.DottedCapitalIReadsAsPanic | tailscale-mcp-server/internal/logger/logger.go:44-51 | LOG_LEVEL=PANİC, with a dotted capital I, is read as the panic level |
| Text.ToLowerChar | tailscale-mcp-server/internal/logger/logger.go:77 | a character lowers into ASCII exactly when it is ASCII, U+0130 or the Kelvin sign U+212A |
| Logging.OutputsLayout | tailscale-mcp-server/internal/logger/logger.go:77-102 | logs and the logger's own errors go to standard error followed by the log file when one is set, and the encoding is json exactly when LOG_FORMAT is json in any case |
| Logging.LoggerState.constructor | tailscale-mcp-server/internal/logger/logger.go:14-18 | before Initialize no logger is installed |
| Logging.LoggerState.Initialize | tailscale-mcp-server/internal/logger/logger.go:21-116 | a build failure is wrapped as "failed to build logger: ..." and leaves the previous logger in place; otherwise the logger built from the chosen settings is installed and marked initialized |
| Logging.NumericLogLevelIgnored | tailscale-mcp-server/internal/logger/logger.go:44-51 | with LOG_LEVEL=0 the configuration holds level 0, named debug, but the logger runs at info whatever parameter it is given |
| Logging.ZeroIsNoLevelName | tailscale-mcp-server/internal/logger/logger.go:44-51 | "0" is not a level name zap reads |
| Logging.IntendedLevel | tailscale-mcp-server/internal/logger/logger.go:54-67 | the intended level is the configuration's 0..3 table, info outside it |
| Logging.IntendedLevelNames | tailscale-mcp-server/internal/logger/logger.go:54-67 | the zap name of a numeric level is the configuration's own name for it |
| Logging.IntendedLevelAgreesWithConfig | tailscale-mcp-server/internal/config/config.go:68-74 | the intended level agrees with the configuration's level name, and LOG_LEVEL=0 means debug |
| Logging.AtoiZero | tailscale-mcp-server/internal/config/config.go:69 | "0" reads as the integer 0 |
| Logging.ConvertArgs | tailscale-mcp-server/internal/logger/logger.go:255-277 | the loop over the arguments two at a time yields the pairwise field list |
| Logging.FieldsLayout | tailscale-mcp-server/internal/logger/logger.go:255-277 | there are ceil(n/2) fields; field k pairs argument 2k as key with argument 2k+1, and an odd last argument becomes the value of an "orphaned_key" field |
| McpServer.ListsSomeStep | tailscale-mcp-server/internal/mcp/server.go:51-57 | describing one more registered tool, filed under its own name, extends a partial listing by exactly that name |
| McpServer.InitializeOutcomes | tailscale-mcp-server/internal/mcp/server.go:27-44 | a refused request fails with exactly the validator's error; a request is accepted exactly when present, of version 2024-11-05 and naming the client with a name and version, and then gets that version, the server's name and version and a tools capability without listChanged |
| McpServer.CallToolOutcomes | tailscale-mcp-server/internal/mcp/server.go:65-85 | an unknown tool is a ToolNotFound error naming it; a failing tool a ToolExecution error with the tool's name and the failure's text; success exactly when the tool exists and runs, giving its result as one text block without isError; every failure carries an MCP error |
| McpServer.MCPServer.constructor | tailscale-mcp-server/internal/mcp/server.go:18-24 | the server keeps the given registry, name and version |
| McpServer.MCPServer.Initialize | tailscale-mcp-server/internal/mcp/server.go:27-44 | the outcome is the initialize outcome for the server's name and version |
| McpServer.MCPServer.ListTools | tailscale-mcp-server/internal/mcp/server.go:47-62 | ListTools never fails and describes every registered tool exactly once |
| McpServer.MCPServer.CallTool | tailscale-mcp-server/internal/mcp/server.go:65-85 | the outcome is the tools/call outcome on the registry's tools |
| McpServer.MCPServer.Shutdown | tailscale-mcp-server/internal/mcp/server.go:88-91 | Shutdown always succeeds |
| McpTypes.ConstructorsFixCodeAndMessage | tailscale-mcp-server/internal/mcp/types.go:208-283 | two constructed errors have the same code exactly when they come from the same constructor, and then the same message |
| McpTypes.ConstructorCodeRange | tailscale-mcp-server/internal/mcp/types.go:208-283 | an error reads as its non-empty message; every code lies in JSON-RPC's reserved range -32768..-32000, above -32100 exactly for the three MCP-specific constructors |
| McpTypes.ConstructorData | tailscale-mcp-server/internal/mcp/types.go:226-283 | method-not-found carries the method, unsupported-protocol both versions, tool-not-found the tool, tool-execution the tool and the error's text |
| McpTypes.FactoryShapes | tailscale-mcp-server/internal/mcp/types.go:166-203 | each factory builds the message it is named for with the given id: a request (a notification when the id is empty), a notification without id, a response with only a result, an error message with only an error; a nil result or error is malformed |
| McpTypes.CompatibleIsExact | tailscale-mcp-server/internal/mcp/types.go:289-293 | a client version is compatible exactly when it is 2024-11-05, so the empty one is not |
| McpTypes.ValidateInitializeOrder | tailscale-mcp-server/internal/mcp/types.go:296-318 | a request is accepted exactly when present, of the server's version, with a client name and version; each failure is the first check that applies, with its code and message |
| McpTypes.ResponseHelpers | tailscale-mcp-server/internal/mcp/types.go:141-160 | both helpers carry their text as the one text block; the error response is read as a failure, the success response omits isError and is not |
| McpTypes.WrapKeepsChain | tailscale-mcp-server/internal/server/stdio.go:120-126 | wrapping an error with %w keeps the MCP error errors.As finds, while a plain error has none; an MCP error's text is its message |
| Registry.RegisterThenLookup | tailscale-mcp-server/internal/tools/registry.go:45-74 | registering a tool makes it the one found under its name and changes no other name's lookup; registering again under the name replaces it; entries stay filed under their own names |
| Registry.ExecuteOutcomes | tailscale-mcp-server/internal/tools/registry.go:109-127 | an unknown name fails with tool "<name>" not found and runs nothing; a tool's error is wrapped as tool "<name>" execution failed: and keeps its chain; a result is returned unchanged |
| Registry.ToolRegistry.constructor | tailscale-mcp-server/internal/tools/registry.go:24-42 | a new registry holds the built-in tools, which is list_devices alone |
| Registry.ToolRegistry.Register | tailscale-mcp-server/internal/tools/registry.go:45-65 | a nil tool and an empty name are refused with their messages and leave the map; otherwise the tool is filed under its name, replacing any earlier one, and nothing else changes |
| Registry.ToolRegistry.GetTool | tailscale-mcp-server/internal/tools/registry.go:68-74 | a tool is found exactly when one is filed under the name, and it carries that name |
| Registry.ToolRegistry.GetTools | tailscale-mcp-server/internal/tools/registry.go:77-87 | the copy built entry by entry equals the registry's map |
| Registry.ToolRegistry.ListToolNames | tailscale-mcp-server/internal/tools/registry.go:90-99 | every registered name appears exactly once, and nothing else |
| Registry.ToolRegistry.Count | tailscale-mcp-server/internal/tools/registry.go:102-106 | the count is the number of distinct registered names |
| Registry.ToolRegistry.ExecuteTool | tailscale-mcp-server/internal/tools/registry.go:109-127 | the outcome is the execution outcome on the current map |
| Registry.ToolRegistry.Close | tailscale-mcp-server/internal/tools/registry.go:130-140 | the map is emptied, the count drops to zero and no error is returned |
| Serve.PreRunChecks | tailscale-mcp-server/internal/cli/serve.go:59-73 | the flags pass exactly in stdio mode or in http mode with a port in 1..65535; another mode is refused whatever the port, and stdio never looks at the port |
| Serve.ExitCodes | tailscale-mcp-server/internal/cli/serve.go:136-148 | the exit code is 0 exactly for a clean stop, exactly context.Canceled, or an error wrapping http.ErrServerClosed, and 1 otherwise, including a deadline and a second start |
| Serve.StdioExit | tailscale-mcp-server/internal/cli/serve.go:127-148 | in stdio mode the process exits 0 when the signal cancels the loop or standard input ends, and 1 on a read error or a passed deadline |
| Serve.HttpExit | tailscale-mcp-server/internal/cli/serve.go:129-148 | in http mode the process exits 0 exactly when the signal cancels the context and the graceful shutdown succeeds |
| Serve.IntendedRunLevel | tailscale-mcp-server/internal/cli/serve.go:87-96 | the intended logger level is debug under --verbose and otherwise the configured level, named as the configuration names it |
| Serve.VerboseAsWritten | tailscale-mcp-server/internal/cli/serve.go:87-96 | as written, --verbose gives debug only while LOG_LEVEL is unset; with LOG_LEVEL=0 the logger runs at info even under --verbose |
| Serve.Prepare | tailscale-mcp-server/internal/cli/serve.go:87-103 | the run stops before serving exactly when the logger cannot be built, the configuration is refused or the CLI cannot be created; otherwise the server is new, idle and holds the default MCP server over the built-in tools |
| Serve.RunLoaded | tailscale-mcp-server/internal/cli/serve.go:87-148 | a failed preparation exits 1 with nothing written; stdio mode exits as the stdio stop says and writes one frame per reply to the lines read; http mode exits as the HTTP stop says |
| Serve.RunStdio | tailscale-mcp-server/internal/cli/serve.go:127-148 | the stdio branch writes the replies of the default server and exits as its stop says |
| Serve.RunServer | tailscale-mcp-server/internal/cli/serve.go:59-148 | a refused flag exits 1; otherwise the configuration is loaded from the environment and the run proceeds as RunLoaded states |
| Stdio.NonBlank | tailscale-mcp-server/internal/server/stdio.go:57-60 | the lines kept are never blank |
| Stdio.OneReplyPerNonBlankLine | tailscale-mcp-server/internal/server/stdio.go:38-70 | every non-blank line gets exactly one reply, the routing of that line, in input order; blank lines get none, and notifications are answered like requests |
| Stdio.NonBlankAppend | tailscale-mcp-server/internal/server/stdio.go:40-69 | the non-blank lines of concatenated inputs are the concatenation of each input's non-blank lines |
| Stdio.RepliesAppend | tailscale-mcp-server/internal/server/stdio.go:40-69 | the replies to concatenated inputs are the concatenation of each input's replies |
| Stdio.FrameOutcomes | tailscale-mcp-server/internal/server/stdio.go:210-232 | a marshal failure or a failed body write writes nothing, a failed newline write leaves the bare body, each with its wrapped error; the body and its newline are written exactly when no error is reported |
| Stdio.BlankLineNotCounted | tailscale-mcp-server/internal/server/stdio.go:57-60 | a blank line anywhere in the input adds no non-blank line |
| Stdio.BlankLineSkipped | tailscale-mcp-server/internal/server/stdio.go:57-60 | a blank line anywhere in the input changes no reply |
| Stdio.FramesLayout | tailscale-mcp-server/internal/server/stdio.go:210-232 | when every message is marshalled and written, each reply is its body followed by exactly one newline, two writes per reply |
| Stdio.FramesBound | tailscale-mcp-server/internal/server/stdio.go:210-232 | whatever fails, no reply writes more than its body and one newline |
| Stdio.StopOutcomes | tailscale-mcp-server/internal/server/stdio.go:38-56 | the loop stops with ctx.Err() once the context is found done, with a wrapped "stdin read error" when the scanner fails, and with nil at end of input, never because of a message |
| Stdio.StdioServer.constructor | tailscale-mcp-server/internal/server/stdio.go:26-35 | a new transport holds the given server, has written nothing and has sent no message |
| Stdio.StdioServer.WriteMessage | tailscale-mcp-server/internal/server/stdio.go:210-232 | marshal, body write, newline write: what reaches standard output stops at the first failure, whose wrapped error is returned |
| Stdio.StdioServer.HandleLine | tailscale-mcp-server/internal/server/stdio.go:73-107 | one line sends exactly one message, the routing of that line, and returns the send's error |
| Stdio.StdioServer.ReadLine | tailscale-mcp-server/internal/server/stdio.go:57-67 | a blank line sends nothing; any other line sends its reply after the earlier ones, and a failed send does not stop the loop |
| Stdio.StdioServer.Start | tailscale-mcp-server/internal/server/stdio.go:38-70 | the loop returns the stop outcome and sends one message for each non-blank line read before it stopped, whatever the sends' failures; standard output holds what those sends wrote |
| Utils.DecodeRune | tailscale-mcp-server/internal/tailscale/cli.go:229 | each step of reading output text takes one to four bytes, and an ASCII byte is read as itself |
| Utils.DecodeEncodedRune | tailscale-mcp-server/internal/tailscale/cli.go:229 | the UTF-8 bytes of any character, whatever follows them, are read back as that character and take its encoded length |
| Utils.DecodeEncoded | tailscale-mcp-server/internal/tailscale/cli.go:229 | output that is the UTF-8 encoding of some text is read back as exactly that text |
| Utils.DecodeAscii | tailscale-mcp-server/internal/tailscale/cli.go:229 | on ASCII output the text has one character per byte, equal to it |
| Utils.DecodeExamples | tailscale-mcp-server/internal/tailscale/cli.go:201 | the bytes C3 A0 are the one character U+00E0, which trimming keeps; an invalid byte is U+FFFD and the next byte is read on its own |
| Utils.Capped | tailscale-mcp-server/internal/tailscale/utils.go:29-43 | the capped bytes are the first limit bytes, or all of them when there are fewer |
| Utils.CappedAppend | tailscale-mcp-server/internal/tailscale/utils.go:29-43 | capping after an append is capping before it and keeping what still fits of the appended bytes |
| Utils.FlattenAppend | tailscale-mcp-server/internal/tailscale/utils.go:29-43 | the bytes of concatenated chunk lists are the concatenation of each list's bytes |
| Utils.ByteBuffer.Write | tailscale-mcp-server/internal/tailscale/utils.go:34-40 | a buffer write appends the bytes |
| Utils.LimitWriter.constructor | tailscale-mcp-server/internal/tailscale/utils.go:25-27 | a new limit writer wraps the buffer with the limit and has written nothing |
| Utils.LimitWriter.Write | tailscale-mcp-server/internal/tailscale/utils.go:29-43 | a write that fits is forwarded whole; one that does not is cut to what still fits and reports the overflow with the count written; the buffer always holds exactly the first limit bytes offered |
| Utils.Capture | tailscale-mcp-server/internal/tailscale/utils.go:29-43 | the buffer ends with the output cut at exactly the limit, and the overflow is reported exactly when the output was longer |
| Utils.DropLeadingSlashes | tailscale-mcp-server/internal/tailscale/utils.go:50-51 | what remains of an element does not start with a slash |
| Utils.JoinUnderDrive | tailscale-mcp-server/internal/tailscale/utils.go:50-51 | joining a drive and three plain elements puts a backslash between the elements, and none after a drive name ending in ':' |
| Utils.WindowsFallbackIsDriveRelative | tailscale-mcp-server/internal/tailscale/utils.go:48-52 | as written, the two Windows entries are C:Program Files\Tailscale\tailscale.exe and its (x86) twin, neither of them absolute |
| Utils.FallbackPathsAbsolute | tailscale-mcp-server/internal/tailscale/utils.go:46-67 | rooted at C:\, every platform's list has at least two entries and every entry is absolute on that platform |

## Left out

- Process execution and binary discovery: `exec.CommandContext`, the 30-second timeout and kill, the Windows process attributes, and `NewTailscaleCLI`'s path resolution all depend on the operating system. A run's stdout, stderr and ending are given as an input, and the model reaches that input only after validation.
- Concurrency: the mutexes of the registry, the transports, the server and the logger; the HTTP server goroutine and its `select`; and the signal goroutines. Every operation is modelled as running to completion alone.
- JSON encoding and decoding: the transports see a decoded `Envelope`, and json.Marshal of a stdio reply is the `Sink` oracle, which may fail. The typed REST decoding is an oracle as well.
- Stdio.StdioServer.WriteMessage: a failed write writes nothing; an io.Writer that reports an error after writing part of its bytes is not modelled. The log lines of a failure are left out.
- Regular expressions, `url.Parse`, `net.ParseCIDR` and the log-directory `stat`: the two patterns and the CIDR syntax are written out as predicates; `url.Parse` and `stat` are oracles.
- The REST client's HTTP plumbing: `http.Client`, request building and body reading. Each call receives the exchange's outcome as a parameter.
- Router 404s and 405s: requests that `gorilla/mux` matches to no route, or to a registered path under another method (GET /mcp, POST /health), are answered by the router without the middlewares and are not modelled. Shutdown grace periods and the logging middleware's timing are left out too.
- Requests that arrive while `StartHTTP` runs are not replayed through the lifecycle object. `HttpTransport.PostMcp` models them one at a time.
- The pkg/mcp initialize validator: the package calls it but does not define it, so it is the oracle `validate`.
- Lifecycle.TailscaleMCPServer.Shutdown: the branch where closing the registry fails is modelled but never taken, because `ToolRegistry.Close` always returns nil.
- Map iteration order: `GetTools` and `ListToolNames` return their elements in an order the caller does not choose. The model takes that order as a listing parameter, and the contracts hold for every order.
- `time.Duration` saturation: `IsOnline` subtracts nanosecond integers with no overflow, which matches Go for any time within 292 years of the last sighting.
- zap's encoder configuration (colours, time layout), building and installing the zap logger (an oracle that may fail), slog wiring, `godotenv` and the `Sugar` wrappers.
- Signal handling and `os.Exit`, so `Serve` returns the exit code. Cobra's help and root command, version metadata and the entry points are left out too.
- The per-tool glue in `internal/tools` (admin, acl, device, network, list_devices, context). Tools are opaque values whose `Execute` is an oracle.
- Structural schema validation (pkg/cli/schema.go).
- Utils.Utf8Decode: Go keeps an invalid byte of command output as that byte, where the model holds U+FFFD for it. json.Marshal writes U+FFFD for such a byte too, so the reply text is the same. strings.TrimSpace also reads an invalid byte as U+FFFD, which is not white space, so trimming agrees. The byte length of such text is not the output's.
- Text.ToLower: characters outside ASCII other than U+0130 and U+212A are kept where strings.ToLower and bytes.ToLower lower them by the Unicode tables. Every lowered string in the core is compared with ASCII text (zap's level names, "json", "development"), and those characters lower to characters outside ASCII, so each comparison comes out as in Go.
- Config.Redact: counts and keeps characters where Go's redactSecret counts and slices bytes. The two agree on ASCII secrets. The argument, target and input limits do count bytes.
- Text.QuoteChar: characters from U+0080 up are written as they are; Go's %q writes \uXXXX for those that unicode.IsPrint rejects, whose tables are not modelled. Model strings are always valid Unicode: an invalid byte of command output is already U+FFFD (see Utils.Utf8Decode), so %q's \x escapes of invalid UTF-8 do not arise.
- TailscaleCli.Seconds: whole seconds by integer division. tailscale-mcp-server/internal/tailscale/cli.go:313 goes through float64 `Duration.Seconds()`, which rounds up a duration above about 10^7 seconds whose fraction is within a float step of the next second.

## Findings

| source | as written | input that shows it | evidently intended | confidence | as-written member | corrected member |
|---|---|---|---|---|---|---|
| tailscale-mcp-server/internal/tailscale/utils.go:48-52 | The Windows fallback paths are `filepath.Join("C:", "Program Files", ...)`, which Go's Windows path rules join to the drive-relative path `C:Program Files\Tailscale\tailscale.exe` | GOOS=windows: both Windows entries lack the `\` after the drive letter | absolute paths `C:\Program Files\Tailscale\tailscale.exe` and `C:\Program Files (x86)\Tailscale\tailscale.exe` | not executed | Utils.WindowsFallbackIsDriveRelative | Utils.FallbackPathsAbsolute |
| tailscale-mcp-server/internal/logger/logger.go:44-51 | When LOG_LEVEL is set, the logger parses it as a zap level name. The configuration reads the same variable as a number from 0 to 3 (tailscale-mcp-server/internal/config/config.go:68-74), so a numeric value means something different to each. A set LOG_LEVEL also overrides the debug level that `--verbose` asks for | LOG_LEVEL=0: the configuration says debug, but the logger finds no level name and logs at info. With LOG_LEVEL=0, `serve --verbose` also logs at info | the logger reads the same 0..3 scale the configuration validates, and `--verbose` gives debug | not executed | Logging.NumericLogLevelIgnored | Logging.IntendedLevelAgreesWithConfig |
