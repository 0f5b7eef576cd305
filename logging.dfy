/**
 * The logger's set-up and its field conversion. Initialize chooses a level
 * (the LOG_LEVEL variable, read as a zap level name, or else the numeric
 * parameter), an encoding (LOG_FORMAT) and the output paths (standard error
 * and the log file), then builds and installs the global logger. The
 * variadic key/value arguments of the sugared calls become fields in pairs.
 *
 * Building the zap logger is an oracle that may fail; encoder details
 * (colours, time layout) are not modelled.
 */
module Logging {
  import opened Wrappers
  import opened Text
  import C = Config

  /** zapcore's levels, in increasing severity. */
  datatype ZapLevel = Debug | Info | Warn | Error | DPanic | Panic | Fatal

  /** The lower-case names zapcore reads. */
  function LevelByName(name: string): Option<ZapLevel> {
    if name == "debug" then Some(Debug)
    else if name == "info" || name == "" then Some(Info)
    else if name == "warn" then Some(Warn)
    else if name == "error" then Some(Error)
    else if name == "dpanic" then Some(DPanic)
    else if name == "panic" then Some(Panic)
    else if name == "fatal" then Some(Fatal)
    else None
  }

  /** Level.UnmarshalText: the text as it is, or else lower-cased. */
  function ParseZapLevel(text: string): Option<ZapLevel> {
    if LevelByName(text).Some? then LevelByName(text) else LevelByName(ToLower(text))
  }

  /** The numeric parameter: 0 to 3 are debug, info, warn and error; anything else is info. */
  function LevelOfParam(level: int): (r: ZapLevel)
    ensures r in {Debug, Info, Warn, Error}
    ensures !(0 <= level <= 3) ==> r == Info
  {
    if level == 0 then Debug
    else if level == 1 then Info
    else if level == 2 then Warn
    else if level == 3 then Error
    else Info
  }

  /** The level Initialize sets: a set LOG_LEVEL wins, an unreadable one gives info. */
  function SelectedLevel(envLevel: string, param: int): ZapLevel {
    if envLevel != "" then ParseZapLevel(envLevel).GetOr(Info) else LevelOfParam(param)
  }

  /** LOG_FORMAT: "json" in any case selects JSON, anything else the console encoder. */
  function Encoding(logFormat: string): (r: string)
    ensures r == "json" || r == "console"
  {
    if ToLower(logFormat) == "json" then "json" else "console"
  }

  /** Standard error, then the log file when one is given. */
  function OutputPaths(logFile: string): seq<string> {
    ["stderr"] + (if logFile != "" then [logFile] else [])
  }

  datatype LoggerConfig = LoggerConfig(
    development: bool,
    level: ZapLevel,
    encoding: string,
    outputPaths: seq<string>,
    errorOutputPaths: seq<string>)

  /** The configuration Initialize builds, before the logger itself is built. */
  function Settings(level: int, logFile: string, env: C.Env): LoggerConfig {
    LoggerConfig(
      ToLower(env("ENVIRONMENT")) == "development",
      SelectedLevel(env("LOG_LEVEL"), level),
      Encoding(env("LOG_FORMAT")),
      OutputPaths(logFile),
      OutputPaths(logFile))
  }

  /**
   * Without LOG_LEVEL the parameter decides, with the 0..3 table and info
   * for anything else; with it the parameter is ignored and an unknown name
   * gives info.
   */
  lemma LevelSelection(envLevel: string, param: int, other: int)
    ensures envLevel == "" ==> SelectedLevel(envLevel, param) == LevelOfParam(param)
    ensures envLevel == "" && 0 <= param <= 3 ==> SelectedLevel(envLevel, param) == [Debug, Info, Warn, Error][param]
    ensures envLevel != "" ==> SelectedLevel(envLevel, param) == SelectedLevel(envLevel, other)
    ensures envLevel != "" && ParseZapLevel(envLevel).None? ==> SelectedLevel(envLevel, param) == Info
  {
  }

  /** Every name zapcore reads is in lower case already. */
  lemma NamesAreLowerCase(name: string)
    requires LevelByName(name).Some?
    ensures ToLower(name) == name
  {
    LowerAsciiKept(name);
  }

  /** A level name is read regardless of case. */
  lemma ParseIgnoresCase(text: string)
    ensures ParseZapLevel(text) == ParseZapLevel(ToLower(text))
  {
    ToLowerIdempotent(text);
    var lower := ToLower(text);
    if LevelByName(text).Some? {
      NamesAreLowerCase(text);
    } else if LevelByName(lower).Some? {
      assert ToLower(lower) == lower;
    }
  }

  /** "PAN\U{130}C", with a dotted capital I, is read as panic: zap lowers the text by the Unicode tables. */
  lemma DottedCapitalIReadsAsPanic()
    ensures ParseZapLevel("PAN\U{130}C") == Some(Panic)
  {
    var lower := ToLower("PAN\U{130}C");
    assert lower[0] == 'p' && lower[1] == 'a' && lower[2] == 'n' && lower[3] == 'i' && lower[4] == 'c';
    assert lower == "panic";
  }

  /**
   * The outputs are standard error, followed by the log file when one is set,
   * for the logs and the logger's own errors alike.
   */
  lemma OutputsLayout(level: int, logFile: string, env: C.Env)
    ensures var s := Settings(level, logFile, env);
            s.outputPaths == s.errorOutputPaths && s.outputPaths[0] == "stderr" &&
            |s.outputPaths| == (if logFile == "" then 1 else 2) &&
            (logFile != "" ==> s.outputPaths[1] == logFile)
    ensures Settings(level, logFile, env).encoding == "json" <==> ToLower(env("LOG_FORMAT")) == "json"
  {
  }

  /** The global logger and whether Initialize has installed it. */
  class LoggerState {
    var initialized: bool
    var current: Option<LoggerConfig>

    constructor ()
      ensures !initialized && current.None?
    {
      initialized := false;
      current := None;
    }

    /**
     * Initialize: build the configuration step by step, build the logger
     * (the oracle `build`), and install it; a build failure is wrapped and
     * leaves the previous logger in place.
     */
    method Initialize(level: int, logFile: string, env: C.Env, build: LoggerConfig -> Option<string>) returns (err: Option<string>)
      modifies this
      ensures build(Settings(level, logFile, env)).Some? ==>
              err == Some("failed to build logger: " + build(Settings(level, logFile, env)).value) &&
              initialized == old(initialized) && current == old(current)
      ensures build(Settings(level, logFile, env)).None? ==>
              err.None? && initialized && current == Some(Settings(level, logFile, env))
    {
      var isDev := ToLower(env("ENVIRONMENT")) == "development";
      var config := LoggerConfig(isDev, Info, "", [], []);
      var logLevelStr := env("LOG_LEVEL");
      if logLevelStr != "" {
        var zapLevel := ParseZapLevel(logLevelStr);
        if zapLevel.None? {
          config := config.(level := Info);
        } else {
          config := config.(level := zapLevel.value);
        }
      } else {
        config := config.(level := LevelOfParam(level));
      }
      if ToLower(env("LOG_FORMAT")) == "json" {
        config := config.(encoding := "json");
      } else {
        config := config.(encoding := "console");
      }
      config := config.(outputPaths := ["stderr"], errorOutputPaths := ["stderr"]);
      if logFile != "" {
        config := config.(outputPaths := config.outputPaths + [logFile], errorOutputPaths := config.errorOutputPaths + [logFile]);
      }
      assert config.level == SelectedLevel(env("LOG_LEVEL"), level);
      assert config == Settings(level, logFile, env);
      var failure := build(config);
      if failure.Some? {
        return Some("failed to build logger: " + failure.value);
      }
      current := Some(config);
      initialized := true;
      err := None;
    }
  }

  /**
   * The numeric LOG_LEVEL the configuration documents and reads is not a
   * level name to the logger: with LOG_LEVEL=0 the configuration holds
   * level 0, debug, but the logger runs at info, whatever parameter (the
   * configured level, or 0 for --verbose) it is given.
   */
  lemma NumericLogLevelIgnored(env: C.Env, param: int)
    requires env("LOG_LEVEL") == "0"
    ensures C.Loaded(env).logLevel == 0 && C.LevelName(C.Loaded(env).logLevel) == "debug"
    ensures SelectedLevel(env("LOG_LEVEL"), param) == Info
    ensures Settings(0, "", env).level == Info
  {
    AtoiZero();
    C.LogLevelApplied(env);
    ZeroIsNoLevelName();
  }

  /** "0" is not a name zapcore reads, in any case. */
  lemma ZeroIsNoLevelName()
    ensures ParseZapLevel("0").None?
  {
    var zero := "0";
    assert ToLower(zero) == zero;
  }

  /**
   * The level the logger is evidently meant to take: the parameter, which
   * the caller computes from the configuration (and --verbose), read with
   * the configuration's own table.
   */
  function IntendedLevel(param: int): (r: ZapLevel)
    ensures 0 <= param <= 3 ==> r == [Debug, Info, Warn, Error][param]
    ensures !(0 <= param <= 3) ==> r == Info
  {
    LevelOfParam(param)
  }

  /** The name zap gives the four levels the configuration knows. */
  function LevelName(l: ZapLevel): string {
    match l
    case Debug => "debug"
    case Info => "info"
    case Warn => "warn"
    case Error => "error"
    case DPanic => "dpanic"
    case Panic => "panic"
    case Fatal => "fatal"
  }

  /** The zap name of a numeric level is the configuration's name for it. */
  lemma IntendedLevelNames(level: int)
    ensures LevelName(IntendedLevel(level)) == C.LevelName(level)
  {
  }

  /**
   * The intended level agrees with the configuration's own name for its
   * level, and LOG_LEVEL=0 means debug.
   */
  lemma IntendedLevelAgreesWithConfig(env: C.Env)
    ensures LevelName(IntendedLevel(C.Loaded(env).logLevel)) == C.LevelName(C.Loaded(env).logLevel)
    ensures env("LOG_LEVEL") == "0" ==> IntendedLevel(C.Loaded(env).logLevel) == Debug
  {
    IntendedLevelNames(C.Loaded(env).logLevel);
    if env("LOG_LEVEL") == "0" {
      AtoiZero();
      C.LogLevelApplied(env);
    }
  }

  lemma AtoiZero()
    ensures Atoi("0") == Some(0)
  {
    var zero := "0";
    assert AllDigits(zero) && DigitsValue(zero) == 0 by {
      assert zero[..0] == [];
    }
  }

  /** A variadic argument: a string, or another value with its %v rendering. */
  datatype Arg = Str(s: string) | Other(rendered: string)

  datatype Field = Field(key: string, value: Arg)

  /** The key a field gets from an argument: the string itself, or the rendering. */
  function KeyOf(a: Arg): string {
    match a
    case Str(s) => s
    case Other(r) => r
  }

  /** The fields for an argument list, pair by pair. */
  function Fields(args: seq<Arg>): seq<Field>
    decreases |args|
  {
    if |args| == 0 then []
    else if |args| == 1 then [Field("orphaned_key", args[0])]
    else [Field(KeyOf(args[0]), args[1])] + Fields(args[2..])
  }

  /** convertArgsToZapFields: the loop over the arguments two at a time. */
  method ConvertArgs(args: seq<Arg>) returns (fields: seq<Field>)
    ensures fields == Fields(args)
  {
    if |args| == 0 {
      return [];
    }
    fields := [];
    var i := 0;
    while i < |args|
      invariant 0 <= i <= |args|
      invariant fields + Fields(args[i..]) == Fields(args)
      decreases |args| - i
    {
      if i + 1 >= |args| {
        fields := fields + [Field("orphaned_key", args[i])];
        break;
      }
      var key := KeyOf(args[i]);
      assert args[i..][2..] == args[i + 2..];
      fields := fields + [Field(key, args[i + 1])];
      i := i + 2;
    }
    if i == |args| {
      assert args[i..] == [];
    }
  }

  /**
   * ⌈n/2⌉ fields: field k pairs argument 2k, as a key, with argument 2k+1;
   * an odd last argument becomes the value of an "orphaned_key" field.
   */
  lemma {:induction false} FieldsLayout(args: seq<Arg>)
    ensures |Fields(args)| == (|args| + 1) / 2
    ensures forall k :: 0 <= k < |args| / 2 ==> Fields(args)[k] == Field(KeyOf(args[2 * k]), args[2 * k + 1])
    ensures |args| % 2 == 1 ==> Fields(args)[|args| / 2] == Field("orphaned_key", args[|args| - 1])
    decreases |args|
  {
    if |args| >= 2 {
      var rest := args[2..];
      FieldsLayout(rest);
      HalfStep(|args|);
      forall k | 1 <= k < |args| / 2
        ensures Fields(args)[k] == Field(KeyOf(args[2 * k]), args[2 * k + 1])
      {
        assert Fields(args)[k] == Fields(rest)[k - 1];
        assert rest[2 * (k - 1)] == args[2 * k] && rest[2 * (k - 1) + 1] == args[2 * k + 1];
      }
      if |args| % 2 == 1 {
        assert Fields(args)[|args| / 2] == Fields(rest)[|rest| / 2];
        assert rest[|rest| - 1] == args[|args| - 1];
      }
    }
  }

  /** Two fewer arguments: one pair fewer, the same parity. */
  lemma HalfStep(n: nat)
    requires n >= 2
    ensures (n - 2) / 2 == n / 2 - 1 && (n - 2) % 2 == n % 2 && (n - 2 + 1) / 2 == (n + 1) / 2 - 1
  {
  }
}
