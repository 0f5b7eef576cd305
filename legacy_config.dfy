/**
 * The legacy configuration: the same variables as the current one plus a
 * fixed HTTP port, taken as they are (no trimming), and a Validate that
 * accepts everything. Redaction and the level names are the current
 * configuration's, which the legacy file repeats word for word.
 */
module LegacyConfig {
  import opened Wrappers
  import opened Text
  import C = Config

  datatype Config = Config(
    apiKey: string,
    tailnet: string,
    baseURL: string,
    logLevel: int,
    logFile: string,
    serverMode: string,
    httpPort: int)

  const Defaults := Config("", "", C.DefaultBaseURL, 1, "", "stdio", 8080)

  /** A variable when it is set, the current value otherwise. */
  function ValueOr(raw: string, current: string): string {
    if raw != "" then raw else current
  }

  /** The configuration Load builds from an environment. */
  function Loaded(env: C.Env): Config {
    Config(
      ValueOr(env("TAILSCALE_API_KEY"), Defaults.apiKey),
      ValueOr(env("TAILSCALE_TAILNET"), Defaults.tailnet),
      ValueOr(env("TAILSCALE_API_BASE_URL"), Defaults.baseURL),
      C.LevelOr(env("LOG_LEVEL"), Defaults.logLevel),
      ValueOr(env("MCP_SERVER_LOG_FILE"), Defaults.logFile),
      Defaults.serverMode,
      Defaults.httpPort)
  }

  /** Load: the defaults, then each variable in turn; it never fails. */
  method Load(env: C.Env) returns (cfg: Config)
    ensures cfg == Loaded(env)
  {
    cfg := Defaults;
    var apiKey := env("TAILSCALE_API_KEY");
    if apiKey != "" {
      cfg := cfg.(apiKey := apiKey);
    }
    var tailnet := env("TAILSCALE_TAILNET");
    if tailnet != "" {
      cfg := cfg.(tailnet := tailnet);
    }
    var baseURL := env("TAILSCALE_API_BASE_URL");
    if baseURL != "" {
      cfg := cfg.(baseURL := baseURL);
    }
    var logLevel := env("LOG_LEVEL");
    if logLevel != "" {
      var level := Atoi(logLevel);
      if level.Some? {
        if level.value >= 0 && level.value <= 3 {
          cfg := cfg.(logLevel := level.value);
        }
      }
    }
    var logFile := env("MCP_SERVER_LOG_FILE");
    if logFile != "" {
      cfg := cfg.(logFile := logFile);
    }
  }

  /**
   * What Load gives: port 8080, mode stdio, a level in 0..3 read as the
   * current loader reads it, and the other variables exactly as set,
   * surrounding white space included.
   */
  lemma LoadedShape(env: C.Env)
    ensures var c := Loaded(env);
            c.httpPort == 8080 && c.serverMode == "stdio" && 0 <= c.logLevel <= 3 &&
            c.logLevel == C.Loaded(env).logLevel &&
            c.apiKey == env("TAILSCALE_API_KEY") && c.tailnet == env("TAILSCALE_TAILNET") &&
            c.logFile == env("MCP_SERVER_LOG_FILE") &&
            c.baseURL == (if env("TAILSCALE_API_BASE_URL") == "" then "https://api.tailscale.com" else env("TAILSCALE_API_BASE_URL"))
  {
  }

  /** On a value without surrounding white space the two ways of reading a variable agree. */
  lemma ValueOrTrimmed(raw: string, current: string)
    requires Trimmed(raw)
    ensures ValueOr(raw, current) == C.TrimmedOr(raw, current)
  {
    TrimSpaceOfTrimmed(raw);
  }

  /**
   * On an environment whose values carry no surrounding white space the two
   * loaders agree on every shared field.
   */
  lemma AgreesWithCurrentLoader(env: C.Env)
    requires Trimmed(env("TAILSCALE_API_KEY")) && Trimmed(env("TAILSCALE_TAILNET"))
    requires Trimmed(env("TAILSCALE_API_BASE_URL")) && Trimmed(env("MCP_SERVER_LOG_FILE"))
    ensures var c, n := Loaded(env), C.Loaded(env);
            c.apiKey == n.apiKey && c.tailnet == n.tailnet && c.baseURL == n.baseURL &&
            c.logLevel == n.logLevel && c.logFile == n.logFile && c.serverMode == n.serverMode
  {
    ValueOrTrimmed(env("TAILSCALE_API_KEY"), "");
    ValueOrTrimmed(env("TAILSCALE_TAILNET"), "");
    ValueOrTrimmed(env("TAILSCALE_API_BASE_URL"), C.DefaultBaseURL);
    ValueOrTrimmed(env("MCP_SERVER_LOG_FILE"), "");
  }

  /** A key padded with one space on each side is kept padded here and trimmed by the current loader. */
  lemma PaddedKeyKept(env: C.Env, key: string)
    requires key != "" && Trimmed(key) && env("TAILSCALE_API_KEY") == " " + key + " "
    ensures Loaded(env).apiKey == " " + key + " "
    ensures C.Loaded(env).apiKey == key
  {
    var padded := " " + key + " ";
    assert padded[1..] == key + " ";
    assert TrimLeft(padded) == TrimLeft(key + " ");
    assert TrimLeft(key + " ") == key + " ";
    assert (key + " ")[..|key|] == key;
    assert TrimRight(key + " ") == TrimRight(key);
    TrimSpaceOfTrimmed(key);
    assert TrimSpace(padded) == key;
  }

  /** Validate: API credentials are checked by the tools that need them, so nothing is refused. */
  function Validate(c: Config): (err: Option<string>)
    ensures err.None?
  {
    None
  }

  /** SanitizedCopy: the key replaced by its redaction when set, every other field kept. */
  function SanitizedCopy(c: Config): (r: Config)
    ensures r.tailnet == c.tailnet && r.baseURL == c.baseURL && r.logLevel == c.logLevel
    ensures r.logFile == c.logFile && r.serverMode == c.serverMode && r.httpPort == c.httpPort
    ensures |r.apiKey| == |c.apiKey|
    ensures c.apiKey == "" ==> r.apiKey == ""
    ensures c.apiKey != "" ==> r.apiKey == C.Redact(c.apiKey)
    ensures HasAPICredentials(r) == HasAPICredentials(c)
  {
    if c.apiKey != "" then c.(apiKey := C.Redact(c.apiKey)) else c
  }

  /** HasAPICredentials */
  predicate HasAPICredentials(c: Config) {
    c.apiKey != "" && c.tailnet != ""
  }

  /** LogLevelString, the same table as the current configuration's. */
  function LogLevelString(c: Config): (r: string)
    ensures 0 <= c.logLevel <= 3 ==> r == ["debug", "info", "warn", "error"][c.logLevel]
    ensures !(0 <= c.logLevel <= 3) ==> r == "info"
  {
    C.LevelName(c.logLevel)
  }
}
