/**
 * The server's configuration: loading from the environment with defaults,
 * collect-all validation, the validation errors' texts, secret redaction
 * and the small accessors.
 *
 * The environment is a function from variable name to value, "" for an
 * unset variable (os.Getenv). url.Parse and the stat of the log directory
 * are oracles passed to the members that use them. Loading a .env file is
 * not modelled.
 */
module Config {
  import opened Wrappers
  import opened Text

  datatype Config = Config(
    apiKey: string,
    tailnet: string,
    baseURL: string,
    logLevel: int,
    logFile: string,
    serverMode: string)

  /** os.Getenv */
  type Env = string -> string

  const DefaultBaseURL := "https://api.tailscale.com"

  /** The configuration before any variable is read. */
  const Defaults := Config("", "", DefaultBaseURL, 1, "", "stdio")

  /** A trimmed variable when it is not empty, the current value otherwise. */
  function TrimmedOr(raw: string, current: string): string {
    if TrimSpace(raw) != "" then TrimSpace(raw) else current
  }

  /** LOG_LEVEL, untrimmed: applied when it reads as an integer from 0 to 3. */
  function LevelOr(raw: string, current: int): int {
    if raw != "" && Atoi(raw).Some? && 0 <= Atoi(raw).value <= 3 then Atoi(raw).value else current
  }

  /** The five variables Load reads, as os.Getenv returns them. */
  datatype Vars = Vars(apiKey: string, tailnet: string, baseURL: string, logLevel: string, logFile: string)

  function Read(env: Env): Vars {
    Vars(env("TAILSCALE_API_KEY"), env("TAILSCALE_TAILNET"), env("TAILSCALE_API_BASE_URL"),
         env("LOG_LEVEL"), env("MCP_SERVER_LOG_FILE"))
  }

  /** The configuration the defaults and the variables' values give. */
  function FromVars(v: Vars): Config {
    Config(
      TrimmedOr(v.apiKey, Defaults.apiKey),
      TrimmedOr(v.tailnet, Defaults.tailnet),
      TrimmedOr(v.baseURL, Defaults.baseURL),
      LevelOr(v.logLevel, Defaults.logLevel),
      TrimmedOr(v.logFile, Defaults.logFile),
      Defaults.serverMode)
  }

  /** The configuration Load builds from an environment. */
  function Loaded(env: Env): Config {
    FromVars(Read(env))
  }

  /** Load: the defaults, then each variable in turn; it never fails. */
  method Load(env: Env) returns (cfg: Config)
    ensures cfg == Loaded(env)
  {
    ghost var v := Read(env);
    cfg := Defaults;
    var apiKey := TrimSpace(env("TAILSCALE_API_KEY"));
    if apiKey != "" {
      cfg := cfg.(apiKey := apiKey);
    }
    assert cfg == Defaults.(apiKey := TrimmedOr(v.apiKey, Defaults.apiKey));
    var tailnet := TrimSpace(env("TAILSCALE_TAILNET"));
    if tailnet != "" {
      cfg := cfg.(tailnet := tailnet);
    }
    assert cfg.tailnet == TrimmedOr(v.tailnet, Defaults.tailnet);
    var baseURL := TrimSpace(env("TAILSCALE_API_BASE_URL"));
    if baseURL != "" {
      cfg := cfg.(baseURL := baseURL);
    }
    assert cfg.baseURL == TrimmedOr(v.baseURL, Defaults.baseURL);
    var logLevel := env("LOG_LEVEL");
    if logLevel != "" {
      var level := Atoi(logLevel);
      if level.Some? {
        if level.value >= 0 && level.value <= 3 {
          cfg := cfg.(logLevel := level.value);
        }
      }
    }
    assert cfg.logLevel == LevelOr(v.logLevel, Defaults.logLevel);
    var logFile := TrimSpace(env("MCP_SERVER_LOG_FILE"));
    if logFile != "" {
      cfg := cfg.(logFile := logFile);
    }
    assert cfg.logFile == TrimmedOr(v.logFile, Defaults.logFile);
  }

  /** A variable either leaves the current value or replaces it by its trimmed, non-empty self. */
  lemma TrimmedOrShape(raw: string, current: string)
    requires Trimmed(current)
    ensures Trimmed(TrimmedOr(raw, current))
    ensures TrimSpace(raw) == "" ==> TrimmedOr(raw, current) == current
    ensures TrimSpace(raw) != "" ==> TrimmedOr(raw, current) == TrimSpace(raw) != ""
  {
    TrimSpaceTrimmed(raw);
  }

  /**
   * What the variables give: the mode is stdio, the level lies in 0..3, the
   * base URL is never empty, and the string values carry no surrounding
   * white space; a variable that is empty or blank leaves its default.
   */
  lemma FromVarsShape(v: Vars)
    ensures var c := FromVars(v);
            c.serverMode == "stdio" && 0 <= c.logLevel <= 3 && c.baseURL != "" &&
            Trimmed(c.apiKey) && Trimmed(c.tailnet) && Trimmed(c.baseURL) && Trimmed(c.logFile)
    ensures TrimSpace(v.baseURL) == "" ==> FromVars(v).baseURL == DefaultBaseURL
    ensures FromVars(v).apiKey == TrimSpace(v.apiKey)
    ensures FromVars(v).tailnet == TrimSpace(v.tailnet)
    ensures FromVars(v).logFile == TrimSpace(v.logFile)
  {
    assert Trimmed(DefaultBaseURL) by {
      assert DefaultBaseURL[0] == 'h' && DefaultBaseURL[|DefaultBaseURL| - 1] == 'm';
    }
    TrimmedOrShape(v.apiKey, "");
    TrimmedOrShape(v.tailnet, "");
    TrimmedOrShape(v.baseURL, DefaultBaseURL);
    TrimmedOrShape(v.logFile, "");
  }

  /**
   * What Load gives, variable by variable: TAILSCALE_API_KEY,
   * TAILSCALE_TAILNET and MCP_SERVER_LOG_FILE trimmed, a blank
   * TAILSCALE_API_BASE_URL leaving the public API's address.
   */
  lemma LoadedShape(env: Env)
    ensures var c := Loaded(env);
            c.serverMode == "stdio" && 0 <= c.logLevel <= 3 && c.baseURL != "" &&
            Trimmed(c.apiKey) && Trimmed(c.tailnet) && Trimmed(c.baseURL) && Trimmed(c.logFile)
    ensures TrimSpace(env("TAILSCALE_API_BASE_URL")) == "" ==> Loaded(env).baseURL == DefaultBaseURL
    ensures Loaded(env).apiKey == TrimSpace(env("TAILSCALE_API_KEY"))
    ensures Loaded(env).tailnet == TrimSpace(env("TAILSCALE_TAILNET"))
    ensures Loaded(env).logFile == TrimSpace(env("MCP_SERVER_LOG_FILE"))
  {
    FromVarsShape(Read(env));
  }

  /** An unset variable leaves the current value. */
  lemma UnsetVariable(current: string, level: int)
    ensures TrimmedOr("", current) == current
    ensures LevelOr("", level) == level
  {
    assert TrimLeft("") == "";
    assert TrimRight("") == "";
  }

  /** An environment with none of the variables set gives the defaults. */
  lemma EmptyEnvironment(env: Env)
    requires forall name :: env(name) == ""
    ensures Loaded(env) == Config("", "", "https://api.tailscale.com", 1, "", "stdio")
  {
    var v := Read(env);
    assert v.apiKey == "" && v.tailnet == "" && v.baseURL == "";
    assert v.logLevel == "" && v.logFile == "";
    UnsetVariable("", 1);
    UnsetVariable(DefaultBaseURL, 1);
  }

  /**
   * LOG_LEVEL is taken exactly when the whole value reads as an integer from
   * 0 to 3; anything else, including a value in range with surrounding
   * spaces, leaves level 1.
   */
  lemma LogLevelApplied(env: Env)
    ensures Atoi(env("LOG_LEVEL")).Some? && 0 <= Atoi(env("LOG_LEVEL")).value <= 3 ==>
            Loaded(env).logLevel == Atoi(env("LOG_LEVEL")).value
    ensures !(Atoi(env("LOG_LEVEL")).Some? && 0 <= Atoi(env("LOG_LEVEL")).value <= 3) ==>
            Loaded(env).logLevel == 1
    ensures env("LOG_LEVEL") == " 2" ==> Loaded(env).logLevel == 1
  {
    if env("LOG_LEVEL") == "" {
      assert Atoi("").None?;
    }
  }

  datatype ValidationError = ValidationError(field: string, value: string, message: string)

  /** ValidationError.Error */
  function ValidationErrorText(e: ValidationError): string {
    if e.value != "" then "invalid " + e.field + " value " + Quote(e.value) + ": " + e.message
    else "invalid " + e.field + ": " + e.message
  }

  /** The quoted value appears in the text only when there is a value. */
  lemma ValidationErrorShape(e: ValidationError)
    ensures HasPrefix(ValidationErrorText(e), "invalid " + e.field)
    ensures HasSuffix(ValidationErrorText(e), ": " + e.message)
    ensures e.value != "" ==> Contains(ValidationErrorText(e), " value " + Quote(e.value) + ": ")
    ensures e.value == "" ==> ValidationErrorText(e) == "invalid " + e.field + ": " + e.message
  {
    var head := "invalid " + e.field;
    if e.value != "" {
      FiveParts(head, " value ", Quote(e.value), ": ", e.message);
    } else {
      AppendEnds(head, ": " + e.message);
      assert head + ": " + e.message == head + (": " + e.message);
    }
  }

  /**
   * isValidLogPath's directory: the path without one trailing "/", cut at its
   * last "/" when that is not the first character, else ".".
   */
  function LogDir(path: string): (dir: string)
    ensures dir == "." || (|dir| > 0 && HasPrefix(path, dir + "/"))
  {
    var d := TrimSuffix(path, "/");
    var idx := LastIndexOf(d, '/');
    if idx > 0 then
      assert d[..idx + 1] == d[..idx] + "/";
      assert path[..idx + 1] == d[..idx + 1];
      d[..idx]
    else "."
  }

  /** isValidLogPath, given whether a path names an existing directory. */
  predicate IsValidLogPath(path: string, isDir: string -> bool) {
    isDir(LogDir(path))
  }

  const ValidModes: seq<string> := ["stdio", "http"]

  function UrlProblem(c: Config, urlParses: string -> bool): seq<ValidationError> {
    if c.baseURL != "" && !urlParses(c.baseURL) then [ValidationError("TailscaleAPIBaseURL", c.baseURL, "must be a valid URL")] else []
  }

  function LevelProblem(c: Config): seq<ValidationError> {
    if c.logLevel < 0 || c.logLevel > 3 then [ValidationError("LogLevel", IntToString(c.logLevel), "must be between 0 (debug) and 3 (error)")] else []
  }

  function ModeProblem(c: Config): seq<ValidationError> {
    if c.serverMode !in ValidModes then [ValidationError("ServerMode", c.serverMode, "must be one of: " + Join(ValidModes, ", "))] else []
  }

  function LogFileProblem(c: Config, isDir: string -> bool): seq<ValidationError> {
    if c.logFile != "" && !IsValidLogPath(c.logFile, isDir) then [ValidationError("LogFile", c.logFile, "path appears invalid or not writable")] else []
  }

  /** The errors Validate collects, in the order it checks. */
  function Problems(c: Config, urlParses: string -> bool, isDir: string -> bool): seq<ValidationError> {
    UrlProblem(c, urlParses) + LevelProblem(c) + ModeProblem(c) + LogFileProblem(c, isDir)
  }

  /** Some collected error concerns the field. */
  predicate Reports(errs: seq<ValidationError>, field: string) {
    exists i :: 0 <= i < |errs| && errs[i].field == field
  }

  lemma ReportsConcat(a: seq<ValidationError>, b: seq<ValidationError>, field: string)
    ensures Reports(a + b, field) <==> Reports(a, field) || Reports(b, field)
  {
    if Reports(a + b, field) {
      var i :| 0 <= i < |a + b| && (a + b)[i].field == field;
      if i >= |a| {
        assert b[i - |a|].field == field;
      }
    }
    if Reports(b, field) {
      var i :| 0 <= i < |b| && b[i].field == field;
      assert (a + b)[|a| + i].field == field;
    }
    if Reports(a, field) {
      var i :| 0 <= i < |a| && a[i].field == field;
      assert (a + b)[i].field == field;
    }
  }

  /**
   * Validate: every failing check is reported, not just the first, and the
   * outcome is nil exactly when no check fails.
   */
  method Validate(c: Config, urlParses: string -> bool, isDir: string -> bool) returns (err: Option<seq<ValidationError>>)
    ensures err == if Problems(c, urlParses, isDir) == [] then None else Some(Problems(c, urlParses, isDir))
  {
    var errors: seq<ValidationError> := [];
    if c.baseURL != "" {
      if !urlParses(c.baseURL) {
        errors := errors + [ValidationError("TailscaleAPIBaseURL", c.baseURL, "must be a valid URL")];
      }
    }
    assert errors == UrlProblem(c, urlParses);
    if c.logLevel < 0 || c.logLevel > 3 {
      errors := errors + [ValidationError("LogLevel", IntToString(c.logLevel), "must be between 0 (debug) and 3 (error)")];
    }
    assert errors == UrlProblem(c, urlParses) + LevelProblem(c);
    if c.serverMode !in ValidModes {
      errors := errors + [ValidationError("ServerMode", c.serverMode, "must be one of: " + Join(ValidModes, ", "))];
    }
    assert errors == UrlProblem(c, urlParses) + LevelProblem(c) + ModeProblem(c);
    if c.logFile != "" {
      if !IsValidLogPath(c.logFile, isDir) {
        errors := errors + [ValidationError("LogFile", c.logFile, "path appears invalid or not writable")];
      }
    }
    assert errors == Problems(c, urlParses, isDir);
    if |errors| > 0 {
      return Some(errors);
    }
    err := None;
  }

  /** One check's contribution reports its field exactly when the check fails, and no other field. */
  lemma OneProblem(p: seq<ValidationError>, own: string, fails: bool, field: string)
    requires p == [] || (fails && |p| == 1 && p[0].field == own)
    requires fails ==> p != []
    ensures Reports(p, field) <==> fails && field == own
  {
  }

  /** The fields the collected errors concern, one disjunct per check. */
  lemma ReportsOf(c: Config, urlParses: string -> bool, isDir: string -> bool, field: string)
    ensures Reports(Problems(c, urlParses, isDir), field) <==>
            (field == "TailscaleAPIBaseURL" && c.baseURL != "" && !urlParses(c.baseURL)) ||
            (field == "LogLevel" && (c.logLevel < 0 || c.logLevel > 3)) ||
            (field == "ServerMode" && c.serverMode !in ValidModes) ||
            (field == "LogFile" && c.logFile != "" && !IsValidLogPath(c.logFile, isDir))
  {
    var u, l, m, f := UrlProblem(c, urlParses), LevelProblem(c), ModeProblem(c), LogFileProblem(c, isDir);
    ReportsConcat(u, l, field);
    ReportsConcat(u + l, m, field);
    ReportsConcat(u + l + m, f, field);
    OneProblem(u, "TailscaleAPIBaseURL", c.baseURL != "" && !urlParses(c.baseURL), field);
    OneProblem(l, "LogLevel", c.logLevel < 0 || c.logLevel > 3, field);
    OneProblem(m, "ServerMode", c.serverMode !in ValidModes, field);
    OneProblem(f, "LogFile", c.logFile != "" && !IsValidLogPath(c.logFile, isDir), field);
  }

  /**
   * Each of the four checks is reported exactly when it fails, whatever the
   * others give: Validate stops at no failure.
   */
  lemma ValidateCollectsAll(c: Config, urlParses: string -> bool, isDir: string -> bool)
    ensures var p := Problems(c, urlParses, isDir);
            (Reports(p, "TailscaleAPIBaseURL") <==> c.baseURL != "" && !urlParses(c.baseURL)) &&
            (Reports(p, "LogLevel") <==> c.logLevel < 0 || c.logLevel > 3) &&
            (Reports(p, "ServerMode") <==> c.serverMode != "stdio" && c.serverMode != "http") &&
            (Reports(p, "LogFile") <==> c.logFile != "" && !isDir(LogDir(c.logFile)))
  {
    ReportsOf(c, urlParses, isDir, "TailscaleAPIBaseURL");
    ReportsOf(c, urlParses, isDir, "LogLevel");
    ReportsOf(c, urlParses, isDir, "ServerMode");
    ReportsOf(c, urlParses, isDir, "LogFile");
  }

  /**
   * One error per failing check, so nil exactly when every check passes;
   * the mode error lists the two modes.
   */
  lemma ValidateCounts(c: Config, urlParses: string -> bool, isDir: string -> bool)
    ensures |Problems(c, urlParses, isDir)| ==
            (if c.baseURL != "" && !urlParses(c.baseURL) then 1 else 0) +
            (if c.logLevel < 0 || c.logLevel > 3 then 1 else 0) +
            (if c.serverMode != "stdio" && c.serverMode != "http" then 1 else 0) +
            (if c.logFile != "" && !isDir(LogDir(c.logFile)) then 1 else 0)
    ensures Problems(c, urlParses, isDir) == [] <==>
            (c.baseURL == "" || urlParses(c.baseURL)) && 0 <= c.logLevel <= 3 &&
            (c.serverMode == "stdio" || c.serverMode == "http") && (c.logFile == "" || isDir(LogDir(c.logFile)))
    ensures c.serverMode != "stdio" && c.serverMode != "http" ==>
            ValidationError("ServerMode", c.serverMode, "must be one of: stdio, http") in Problems(c, urlParses, isDir)
  {
    var u, l, m, f := UrlProblem(c, urlParses), LevelProblem(c), ModeProblem(c), LogFileProblem(c, isDir);
    assert c.serverMode in ValidModes <==> c.serverMode == "stdio" || c.serverMode == "http";
    assert |u| == (if c.baseURL != "" && !urlParses(c.baseURL) then 1 else 0);
    assert |l| == (if c.logLevel < 0 || c.logLevel > 3 then 1 else 0);
    assert |m| == (if c.serverMode != "stdio" && c.serverMode != "http" then 1 else 0);
    assert |f| == (if c.logFile != "" && !isDir(LogDir(c.logFile)) then 1 else 0);
    assert |Problems(c, urlParses, isDir)| == |u| + |l| + |m| + |f|;
    if c.serverMode != "stdio" && c.serverMode != "http" {
      ModeMessage();
      assert m == [ValidationError("ServerMode", c.serverMode, "must be one of: stdio, http")];
      assert m[0] in u + l + m;
    }
  }

  /** The mode error's message spells the two modes out. */
  lemma ModeMessage()
    ensures "must be one of: " + Join(ValidModes, ", ") == "must be one of: stdio, http"
  {
    var joined := Join(ValidModes, ", ");
    assert joined == "stdio, http";
  }

  /** A loaded configuration can fail validation only on its URL or its log file. */
  lemma LoadedConfigProblems(env: Env, urlParses: string -> bool, isDir: string -> bool)
    ensures !Reports(Problems(Loaded(env), urlParses, isDir), "LogLevel")
    ensures !Reports(Problems(Loaded(env), urlParses, isDir), "ServerMode")
    ensures TrimSpace(env("MCP_SERVER_LOG_FILE")) == "" && urlParses(Loaded(env).baseURL) ==>
            Problems(Loaded(env), urlParses, isDir) == []
  {
    LoadedShape(env);
    ValidateCollectsAll(Loaded(env), urlParses, isDir);
    ValidateCounts(Loaded(env), urlParses, isDir);
  }

  /** The texts of the errors, in order. */
  function Texts(errs: seq<ValidationError>): (r: seq<string>)
    ensures |r| == |errs| && forall i :: 0 <= i < |errs| ==> r[i] == ValidationErrorText(errs[i])
  {
    if |errs| == 0 then [] else Texts(errs[..|errs| - 1]) + [ValidationErrorText(errs[|errs| - 1])]
  }

  /** MultiValidationError.Error */
  function MultiErrorText(errs: seq<ValidationError>): string {
    if |errs| == 1 then ValidationErrorText(errs[0])
    else "multiple validation errors: " + Join(Texts(errs), "; ")
  }

  /** MultiValidationError.Error as the source computes it, collecting the messages in a loop. */
  method MultiError(errs: seq<ValidationError>) returns (text: string)
    ensures text == MultiErrorText(errs)
  {
    if |errs| == 1 {
      return ValidationErrorText(errs[0]);
    }
    var messages: seq<string> := [];
    var i := 0;
    while i < |errs|
      invariant 0 <= i <= |errs|
      invariant messages == Texts(errs[..i])
    {
      assert errs[..i + 1][..i] == errs[..i];
      messages := messages + [ValidationErrorText(errs[i])];
      i := i + 1;
    }
    assert errs[..|errs|] == errs;
    text := "multiple validation errors: " + Join(messages, "; ");
  }

  /** One error reads as itself; several read as a prefixed list that names every one. */
  lemma MultiErrorMentionsEach(errs: seq<ValidationError>)
    ensures |errs| == 1 ==> MultiErrorText(errs) == ValidationErrorText(errs[0])
    ensures |errs| != 1 ==> HasPrefix(MultiErrorText(errs), "multiple validation errors: ")
    ensures forall i :: 0 <= i < |errs| ==> Contains(MultiErrorText(errs), ValidationErrorText(errs[i]))
  {
    var t := MultiErrorText(errs);
    if |errs| == 1 {
      assert HasPrefix(t, t);
    } else {
      var prefix := "multiple validation errors: ";
      var body := Join(Texts(errs), "; ");
      assert t[..|prefix|] == prefix;
      JoinContainsParts(Texts(errs), "; ");
      forall i | 0 <= i < |errs|
        ensures Contains(t, ValidationErrorText(errs[i]))
      {
        assert Texts(errs)[i] == ValidationErrorText(errs[i]);
        ContainsExtendLeft(prefix, body, ValidationErrorText(errs[i]));
      }
    }
  }

  /**
   * redactSecret: the length is kept; a secret of at most eight characters
   * is all stars, a longer one keeps its first and last four.
   */
  function Redact(secret: string): (r: string)
    ensures |r| == |secret|
    ensures |secret| <= 8 ==> forall i :: 0 <= i < |r| ==> r[i] == '*'
    ensures |secret| > 8 ==> r[..4] == secret[..4] && r[|r| - 4..] == secret[|secret| - 4..]
    ensures |secret| > 8 ==> forall i :: 4 <= i < |r| - 4 ==> r[i] == '*'
  {
    if |secret| <= 8 then Repeat('*', |secret|)
    else
      var r := secret[..4] + Repeat('*', |secret| - 8) + secret[|secret| - 4..];
      assert r[..4] == secret[..4];
      assert r[|r| - 4..] == secret[|secret| - 4..];
      r
  }

  /** At most the first and last four characters of a secret survive redaction. */
  lemma RedactHidesMiddle(secret: string)
    ensures forall i :: 0 <= i < |secret| && (|secret| <= 8 || 4 <= i < |secret| - 4) ==> Redact(secret)[i] == '*'
    ensures |secret| > 0 ==> Redact(secret) != secret || forall i :: 0 <= i < |secret| && (|secret| <= 8 || 4 <= i < |secret| - 4) ==> secret[i] == '*'
  {
  }

  /**
   * SanitizedCopy: only the API key changes, into its redaction, and only
   * when set; so a copy has credentials exactly when the original does.
   */
  function SanitizedCopy(c: Config): (r: Config)
    ensures r.tailnet == c.tailnet && r.baseURL == c.baseURL && r.logLevel == c.logLevel
    ensures r.logFile == c.logFile && r.serverMode == c.serverMode
    ensures |r.apiKey| == |c.apiKey|
    ensures c.apiKey != "" ==> r.apiKey == Redact(c.apiKey)
    ensures HasAPICredentials(r) == HasAPICredentials(c)
  {
    if c.apiKey != "" then c.(apiKey := Redact(c.apiKey)) else c
  }

  /** HasAPICredentials */
  predicate HasAPICredentials(c: Config) {
    c.apiKey != "" && c.tailnet != ""
  }

  /** LogLevelString: the names of levels 0 to 3, "info" for any other. */
  function LevelName(level: int): (r: string)
    ensures r in {"debug", "info", "warn", "error"}
    ensures 0 <= level <= 3 ==> r == ["debug", "info", "warn", "error"][level]
    ensures !(0 <= level <= 3) ==> r == "info"
  {
    if level == 0 then "debug"
    else if level == 1 then "info"
    else if level == 2 then "warn"
    else if level == 3 then "error"
    else "info"
  }

  /** Distinct levels in range have distinct names. */
  lemma LevelNamesDistinct(a: int, b: int)
    requires 0 <= a <= 3 && 0 <= b <= 3 && a != b
    ensures LevelName(a) != LevelName(b)
  {
  }
}
