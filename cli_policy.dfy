/**
 * The input-safety policy of the Tailscale CLI wrapper: the command
 * allowlist, the character sets refused in arguments, targets and free-form
 * inputs, the two validation patterns and the CIDR syntax accepted by Go's
 * net.ParseCIDR. Both copies of the CLI wrapper (the current one and the
 * legacy one) use the same policy and differ only in how they word their
 * errors; the rejections below are therefore structured values that each
 * copy renders.
 */
module CliPolicy {
  import opened Wrappers
  import opened Text

  const MaxArgLen: nat := 1000
  const MaxBufSize: nat := 10 * 1024 * 1024
  const TimeoutSeconds: nat := 30
  const MaxHostnameLen: nat := 253
  const MinPingCount: int := 1
  const MaxPingCount: int := 100

  /** The 21 subcommands the wrapper lets through. */
  const AllowedCommands: set<string> := {
    "status", "up", "down", "logout", "switch", "configure", "netcheck", "ip", "ping", "ssh",
    "version", "update", "web", "file", "bugreport", "cert", "lock", "licenses", "exit-node",
    "set", "unset"
  }

  /** Characters refused anywhere in a command argument. */
  const ShellMetachars: string := ";&|`$(){}[]<>"

  /** Characters refused in a target, in the order they are looked for. */
  const TargetDangerous: string := ";&|`$(){}[]<>\\'\""

  /** Characters refused in a free-form input, in the order they are looked for. */
  const InputDangerous: string := ";&|`$(){}<>\\"

  // ---------------------------------------------------------------------------
  // The checks ExecuteCommand makes before anything is started
  // ---------------------------------------------------------------------------

  datatype ArgProblem = ArgTooLong(length: nat) | ArgHasMetachar

  datatype CommandRejection =
    | NoCommand
    | NotAllowed(command: string)
    | BadArgument(index: nat, arg: string, problem: ArgProblem)

  /** What is wrong with one argument: its byte length first, then its characters. */
  function ArgProblemOf(a: string): (r: Option<ArgProblem>)
    ensures r == None <==> Utf8Len(a) <= MaxArgLen && !ContainsAny(a, ShellMetachars)
    ensures r.Some? && r.value.ArgTooLong? ==> r.value.length == Utf8Len(a) > MaxArgLen
  {
    if Utf8Len(a) > MaxArgLen then Some(ArgTooLong(Utf8Len(a)))
    else if ContainsAny(a, ShellMetachars) then Some(ArgHasMetachar)
    else None
  }

  /** The first argument at index `from` or later that has a problem. */
  function CheckArgsFrom(args: seq<string>, from: nat): Option<CommandRejection>
    requires from <= |args|
    decreases |args| - from
  {
    if from == |args| then None
    else match ArgProblemOf(args[from])
      case Some(p) => Some(BadArgument(from, args[from], p))
      case None => CheckArgsFrom(args, from + 1)
  }

  /** The validation prefix of ExecuteCommand: `None` means the command may be started. */
  function CheckCommand(args: seq<string>): Option<CommandRejection> {
    if |args| == 0 then Some(NoCommand)
    else if args[0] !in AllowedCommands then Some(NotAllowed(args[0]))
    else CheckArgsFrom(args, 0)
  }

  /** A scan from `from` finds nothing exactly when no argument from there on has a problem. */
  lemma {:induction false} CheckArgsFromNone(args: seq<string>, from: nat)
    requires from <= |args|
    ensures CheckArgsFrom(args, from) == None <==>
            forall j :: from <= j < |args| ==> ArgProblemOf(args[j]) == None
    ensures CheckArgsFrom(args, from).Some? ==> CheckArgsFrom(args, from).value.BadArgument?
    decreases |args| - from
  {
    if from < |args| {
      CheckArgsFromNone(args, from + 1);
    }
  }

  /** A scan from `from` reports the first argument from there on that has a problem. */
  lemma {:induction false} CheckArgsFromFirst(args: seq<string>, from: nat, k: nat, a: string, p: ArgProblem)
    requires from <= |args|
    requires CheckArgsFrom(args, from) == Some(BadArgument(k, a, p))
    ensures from <= k < |args| && a == args[k] && ArgProblemOf(args[k]) == Some(p)
    ensures forall j :: from <= j < k ==> ArgProblemOf(args[j]) == None
    decreases |args| - from
  {
    if ArgProblemOf(args[from]).None? {
      CheckArgsFromFirst(args, from + 1, k, a, p);
    }
  }

  lemma MetacharMembership(c: char)
    ensures c in ShellMetachars <==>
            c == ';' || c == '&' || c == '|' || c == '`' || c == '$' || c == '(' || c == ')' ||
            c == '{' || c == '}' || c == '[' || c == ']' || c == '<' || c == '>'
  {
    if c in ShellMetachars {
      var k :| 0 <= k < |ShellMetachars| && ShellMetachars[k] == c;
    }
  }

  /** The characters of the fixed flags and numbers the wrappers pass. */
  predicate IsPlainChar(c: char) {
    IsAlnum(c) || c == '-' || c == '=' || c == '.' || c == '_'
  }

  /** A short argument of plain characters has no problem. */
  lemma PlainArgAccepted(a: string)
    requires forall i :: 0 <= i < |a| ==> IsPlainChar(a[i])
    requires |a| <= MaxArgLen
    ensures ArgProblemOf(a) == None
  {
    forall i | 0 <= i < |a| ensures a[i] !in ShellMetachars {
      MetacharMembership(a[i]);
    }
    Utf8LenAscii(a);
  }

  /** A command is let through exactly when it is allowlisted and every argument is acceptable. */
  lemma CommandAccepted(args: seq<string>)
    ensures CheckCommand(args) == None <==>
            |args| > 0 && args[0] in AllowedCommands &&
            forall j :: 0 <= j < |args| ==> ArgProblemOf(args[j]) == None
  {
    if |args| > 0 && args[0] in AllowedCommands {
      CheckArgsFromNone(args, 0);
    }
  }

  /** A bad argument is reported at the first index that has a problem, with that problem. */
  lemma CommandRejectsFirstBadArgument(args: seq<string>, k: nat, a: string, p: ArgProblem)
    requires CheckCommand(args) == Some(BadArgument(k, a, p))
    ensures |args| > 0 && args[0] in AllowedCommands
    ensures k < |args| && a == args[k] && ArgProblemOf(args[k]) == Some(p)
    ensures forall j :: 0 <= j < k ==> ArgProblemOf(args[j]) == None
  {
    CheckArgsFromFirst(args, 0, k, a, p);
  }

  // ---------------------------------------------------------------------------
  // Looking for the first listed character
  // ---------------------------------------------------------------------------

  /** The first character of `list`, in list order, that occurs in `s`. */
  function FirstListed(s: string, list: string): (r: Option<char>)
    ensures r.None? <==> forall k :: 0 <= k < |list| ==> list[k] !in s
    ensures r.Some? ==> r.value in s
    ensures r.Some? ==>
      exists k :: 0 <= k < |list| && list[k] == r.value && forall j :: 0 <= j < k ==> list[j] !in s
  {
    if |list| == 0 then None
    else if list[0] in s then Some(list[0])
    else
      var r := FirstListed(s, list[1..]);
      if r.Some? then
        var k :| 0 <= k < |list[1..]| && list[1..][k] == r.value &&
                 forall j :: 0 <= j < k ==> list[1..][j] !in s;
        assert list[k + 1] == r.value && forall j :: 0 <= j < k + 1 ==> list[j] !in s;
        r
      else r
  }

  /** The list's first character is found when it occurs. */
  lemma FirstListedHead(s: string, list: string)
    requires |list| > 0 && list[0] in s
    ensures FirstListed(s, list) == Some(list[0])
  {
  }

  /** A first character that does not occur is passed over. */
  lemma FirstListedSkip(s: string, list: string)
    requires |list| > 0 && list[0] !in s
    ensures FirstListed(s, list) == FirstListed(s, list[1..])
  {
  }

  // ---------------------------------------------------------------------------
  // validateTarget
  // ---------------------------------------------------------------------------

  /** One hostname label: letters, digits and hyphens, starting and ending with a letter or digit. */
  predicate IsLabel(s: string) {
    |s| > 0 && IsAlnum(s[0]) && IsAlnum(s[|s| - 1]) &&
    forall i :: 0 <= i < |s| ==> IsAlnum(s[i]) || s[i] == '-'
  }

  /** The first alternative of the target pattern: labels separated by single dots. */
  predicate IsDottedLabels(s: string)
    decreases |s|
  {
    var k := IndexOf(s, '.');
    if k < 0 then IsLabel(s) else IsLabel(s[..k]) && IsDottedLabels(s[k + 1..])
  }

  /** The second alternative of the target pattern (and of the CIDR pattern): hex digits and colons. */
  predicate IsHexColon(s: string) {
    |s| > 0 && forall i :: 0 <= i < |s| ==> IsHexDigit(s[i]) || s[i] == ':'
  }

  /** The anchored target pattern: a dotted hostname or a hex-and-colon address. */
  predicate TargetPatternMatch(s: string) {
    IsDottedLabels(s) || IsHexColon(s)
  }

  datatype TargetRejection =
    | EmptyTarget
    | DangerousChar(c: char)
    | PathPattern
    | PatternMismatch
    | TargetTooLong

  predicate HasPathPattern(t: string) {
    Contains(t, "..") || HasPrefix(t, "/") || '~' in t
  }

  /** validateTarget: the checks in source order, each reporting the first failure. */
  function CheckTarget(t: string): (r: Option<TargetRejection>)
    ensures r == Some(EmptyTarget) <==> t == ""
    ensures r.Some? && r.value.DangerousChar? ==> r.value.c in TargetDangerous && r.value.c in t
  {
    if t == "" then Some(EmptyTarget)
    else match FirstListed(t, TargetDangerous)
      case Some(c) => Some(DangerousChar(c))
      case None =>
        if HasPathPattern(t) then Some(PathPattern)
        else if !TargetPatternMatch(t) then Some(PatternMismatch)
        else if Utf8Len(t) > MaxHostnameLen then Some(TargetTooLong)
        else None
  }

  /** Every character of a dotted hostname is a letter, digit, hyphen or dot, the first is a letter or digit, and no two dots touch. */
  lemma {:induction false} DottedLabelsShape(s: string)
    requires IsDottedLabels(s)
    ensures |s| > 0 && IsAlnum(s[0])
    ensures forall i :: 0 <= i < |s| ==> IsAlnum(s[i]) || s[i] == '-' || s[i] == '.'
    ensures forall i :: 0 <= i < |s| - 1 ==> !(s[i] == '.' && s[i + 1] == '.')
    decreases |s|
  {
    var k := IndexOf(s, '.');
    if k >= 0 {
      var rest := s[k + 1..];
      DottedLabelsShape(rest);
      assert s == s[..k] + ['.'] + rest;
      forall i | 0 <= i < |s| ensures IsAlnum(s[i]) || s[i] == '-' || s[i] == '.' {
        if i > k { assert s[i] == rest[i - k - 1]; }
      }
      forall i | 0 <= i < |s| - 1 ensures !(s[i] == '.' && s[i + 1] == '.') {
        if i > k { assert s[i] == rest[i - k - 1] && s[i + 1] == rest[i - k]; }
        else if i == k { assert IsAlnum(rest[0]); }
        else if i == k - 1 { assert IsAlnum(s[..k][k - 1]); }
      }
    }
  }

  /** A string that matches the target pattern has none of the dangerous characters and no path pattern. */
  lemma PatternExcludesDangerous(t: string)
    requires TargetPatternMatch(t)
    ensures FirstListed(t, TargetDangerous) == None
    ensures !HasPathPattern(t)
  {
    if IsDottedLabels(t) {
      DottedLabelsShape(t);
    }
    forall k | 0 <= k < |TargetDangerous| ensures TargetDangerous[k] !in t {
      assert forall i :: 0 <= i < |t| ==> t[i] != TargetDangerous[k];
    }
    ContainsPair(t, '.', '.');
    assert ".." == ['.', '.'];
    assert t[0] != '/';
  }

  /**
   * Whatever the order of the checks, a target is accepted exactly when it
   * is non-empty, matches the pattern and fits in a DNS name.
   */
  lemma TargetAccepted(t: string)
    ensures CheckTarget(t) == None <==> t != "" && TargetPatternMatch(t) && Utf8Len(t) <= MaxHostnameLen
  {
    if t != "" && TargetPatternMatch(t) {
      PatternExcludesDangerous(t);
    }
  }

  /** An accepted target also passes ExecuteCommand's per-argument check. */
  lemma AcceptedTargetIsSafeArgument(t: string)
    requires CheckTarget(t) == None
    ensures ArgProblemOf(t) == None
  {
    forall i | 0 <= i < |t| ensures t[i] !in ShellMetachars {
      forall k | 0 <= k < |TargetDangerous| ensures TargetDangerous[k] != t[i] {
        assert TargetDangerous[k] !in t;
      }
      assert t[i] !in TargetDangerous;
    }
  }

  // ---------------------------------------------------------------------------
  // validateStringInput
  // ---------------------------------------------------------------------------

  datatype InputRejection = InputDangerousChar(c: char) | InputTooLong

  /** validateStringInput: the characters first, then the byte length. */
  function CheckStringInput(s: string): Option<InputRejection> {
    match FirstListed(s, InputDangerous)
    case Some(c) => Some(InputDangerousChar(c))
    case None => if Utf8Len(s) > MaxArgLen then Some(InputTooLong) else None
  }

  /**
   * An input is accepted exactly when it has none of the dangerous
   * characters and fits the byte limit; a refusal names a dangerous
   * character it contains, and the length is looked at only after the
   * characters.
   */
  lemma StringInputChecks(s: string)
    ensures CheckStringInput(s).None? <==>
            (forall k :: 0 <= k < |InputDangerous| ==> InputDangerous[k] !in s) && Utf8Len(s) <= MaxArgLen
    ensures CheckStringInput(s) == Some(InputTooLong) ==> FirstListed(s, InputDangerous).None?
    ensures CheckStringInput(s).Some? && CheckStringInput(s).value.InputDangerousChar? ==>
            CheckStringInput(s).value.c in s && CheckStringInput(s).value.c in InputDangerous
  {
  }

  /**
   * The input check omits the brackets that ExecuteCommand refuses, so an
   * accepted input passes the per-argument check when it has no bracket.
   */
  lemma AcceptedInputIsSafeArgument(s: string)
    requires CheckStringInput(s) == None
    requires '[' !in s && ']' !in s
    ensures ArgProblemOf(s) == None
  {
    StringInputChecks(s);
    forall i | 0 <= i < |s| ensures s[i] !in ShellMetachars {
      forall k | 0 <= k < |InputDangerous| ensures InputDangerous[k] != s[i] {
        assert InputDangerous[k] !in s;
      }
      assert s[i] !in InputDangerous;
    }
  }

  /** An input with a bracket that the input check accepts is still refused by ExecuteCommand. */
  lemma BracketInputPassesInputCheckOnly(s: string)
    requires CheckStringInput(s) == None && ('[' in s || ']' in s)
    ensures ArgProblemOf(s) == Some(ArgHasMetachar)
  {
    StringInputChecks(s);
    assert '[' in ShellMetachars && ']' in ShellMetachars;
  }

  /** The input check accepts a bracketed IPv6 address. */
  lemma BracketedAddressAccepted()
    ensures CheckStringInput("[::1]") == None
    ensures '[' in "[::1]"
  {
    var t := "[::1]";
    assert t[0] == '[';
    Utf8LenAscii(t);
    forall k | 0 <= k < |InputDangerous| ensures InputDangerous[k] !in t {
      assert forall i :: 0 <= i < |t| ==> t[i] == '[' || t[i] == ':' || t[i] == '1' || t[i] == ']';
    }
    StringInputChecks(t);
  }

  // ---------------------------------------------------------------------------
  // validateRoutes and the CIDR syntax
  // ---------------------------------------------------------------------------

  /** Four dot-separated fields of one to three decimal digits. */
  predicate IsDottedQuadShape(s: string) {
    var f := Split(s, '.');
    |f| == 4 && forall i :: 0 <= i < 4 ==> 1 <= |f[i]| <= 3 && AllDigits(f[i])
  }

  /** The text before the first '/'. */
  function CidrAddress(s: string): string {
    var k := IndexOf(s, '/');
    if k < 0 then s else s[..k]
  }

  /** The text after the first '/'. */
  function CidrBits(s: string): string {
    var k := IndexOf(s, '/');
    if k < 0 then "" else s[k + 1..]
  }

  /** The anchored CIDR pattern: a dotted quad with a 1-2 digit prefix, or hex and colons with a 1-3 digit prefix. */
  predicate CidrPatternMatch(s: string) {
    var a, b := CidrAddress(s), CidrBits(s);
    '/' in s && |b| >= 1 && AllDigits(b) &&
    ((IsDottedQuadShape(a) && |b| <= 2) || (IsHexColon(a) && |b| <= 3))
  }

  /** One IPv4 octet as net.ParseCIDR reads it: at most 255, no leading zero. */
  predicate IsOctet(f: string) {
    1 <= |f| <= 3 && AllDigits(f) && DigitsValue(f) <= 255 && (|f| == 1 || f[0] != '0')
  }

  predicate IsIPv4(s: string) {
    var f := Split(s, '.');
    |f| == 4 && forall i :: 0 <= i < 4 ==> IsOctet(f[i])
  }

  predicate IsHexGroup(g: string) {
    1 <= |g| <= 4 && forall i :: 0 <= i < |g| ==> IsHexDigit(g[i])
  }

  /** The position of the first "::", or -1. */
  function DoubleColonAt(s: string): (r: int)
    ensures -1 <= r < |s| - 1 || r == -1
    ensures r >= 0 ==> s[r] == ':' && s[r + 1] == ':'
    ensures r == -1 ==> forall i :: 0 <= i < |s| - 1 ==> !(s[i] == ':' && s[i + 1] == ':')
  {
    if |s| < 2 then -1
    else if s[0] == ':' && s[1] == ':' then 0
    else
      var k := DoubleColonAt(s[1..]);
      assert forall i :: 1 <= i < |s| - 1 ==> s[i] == s[1..][i - 1] && s[i + 1] == s[1..][i];
      if k < 0 then -1 else k + 1
  }

  /** The colon-separated groups of one side of a "::"; an empty side has none. */
  function SideGroups(s: string): seq<string> {
    if s == "" then [] else Split(s, ':')
  }

  /** An IPv6 address without zone or embedded IPv4, as net.ParseCIDR reads it. */
  predicate IsIPv6(s: string) {
    var k := DoubleColonAt(s);
    if k < 0 then
      var g := Split(s, ':');
      |g| == 8 && forall i :: 0 <= i < 8 ==> IsHexGroup(g[i])
    else
      var g := SideGroups(s[..k]) + SideGroups(s[k + 2..]);
      |g| <= 7 && forall i :: 0 <= i < |g| ==> IsHexGroup(g[i])
  }

  /** net.ParseCIDR succeeds, for a string of the CIDR pattern's shape. */
  predicate CidrParses(s: string) {
    var a, b := CidrAddress(s), CidrBits(s);
    AllDigits(b) &&
    if IsDottedQuadShape(a) then IsIPv4(a) && DigitsValue(b) <= 32
    else IsIPv6(a) && DigitsValue(b) <= 128
  }

  predicate IsDefaultRoute(r: string) {
    r == "0.0.0.0/0" || r == "::/0"
  }

  datatype RouteRejection = BadRouteFormat(index: nat, route: string) | BadCidr(index: nat, route: string)

  predicate RouteAcceptable(r: string) {
    IsDefaultRoute(r) || (CidrPatternMatch(r) && CidrParses(r))
  }

  /** The first index at `from` or later whose element fails `ok`: the loop's early return. */
  function FirstFailing<T>(s: seq<T>, from: nat, ok: T -> bool): (r: Option<nat>)
    requires from <= |s|
    ensures r.None? <==> forall j :: from <= j < |s| ==> ok(s[j])
    ensures r.Some? ==> from <= r.value < |s| && !ok(s[r.value]) && forall j :: from <= j < r.value ==> ok(s[j])
    decreases |s| - from
  {
    if from == |s| then None
    else if ok(s[from]) then FirstFailing(s, from + 1, ok)
    else Some(from)
  }

  /**
   * validateRoutes: the routes in order, a default route always passing;
   * the first other route is refused for its shape if it does not match
   * the CIDR pattern, and for its value if it does not parse.
   */
  function CheckRoutes(routes: seq<string>): Option<RouteRejection> {
    match FirstFailing(routes, 0, RouteAcceptable)
    case None => None
    case Some(i) =>
      if !CidrPatternMatch(routes[i]) then Some(BadRouteFormat(i, routes[i])) else Some(BadCidr(i, routes[i]))
  }

  /** The routes are accepted exactly when every one is a default route or a well-formed CIDR. */
  lemma RoutesAccepted(routes: seq<string>)
    ensures CheckRoutes(routes) == None <==> forall j :: 0 <= j < |routes| ==> RouteAcceptable(routes[j])
  {
  }

  /** A refusal names the first refused index and says whether its shape or its value is wrong. */
  lemma RoutesRejectFirst(routes: seq<string>, e: RouteRejection)
    requires CheckRoutes(routes) == Some(e)
    ensures e.index < |routes| && e.route == routes[e.index] && !RouteAcceptable(e.route)
    ensures e.BadRouteFormat? <==> !CidrPatternMatch(e.route)
    ensures forall j :: 0 <= j < e.index ==> RouteAcceptable(routes[j])
  {
  }

  /** Splitting "a/b" at its first slash, when `a` has none, gives back `a` and `b`. */
  lemma SlashSplit(a: string, b: string)
    requires '/' !in a
    ensures CidrAddress(a + "/" + b) == a && CidrBits(a + "/" + b) == b
  {
    var r := a + "/" + b;
    assert r[|a|] == '/' && r[..|a|] == a;
    assert IndexOf(r, '/') == |a|;
  }

  /** A dotted quad has no slash. */
  lemma DottedQuadHasNoSlash(a: string)
    requires IsDottedQuadShape(a)
    ensures '/' !in a
  {
    SplitJoin(a, '.');
    forall i | 0 <= i < |a| ensures a[i] != '/' {
      JoinSplitMember(Split(a, '.'), '.', i);
    }
  }

  /** An IPv4 prefix of two digits above 32 has the CIDR pattern's shape but does not parse. */
  lemma IPv4PrefixOver32Refused(a: string, b: string)
    requires IsDottedQuadShape(a) && |b| == 2 && AllDigits(b) && DigitsValue(b) > 32
    ensures var r := a + "/" + b; CidrPatternMatch(r) && !CidrParses(r) && !RouteAcceptable(r)
  {
    DottedQuadHasNoSlash(a);
    SlashSplit(a, b);
    var r := a + "/" + b;
    assert r[|r| - 2] == b[0] && IsDigit(b[0]);
    DigitBeforeLastIsNotDefault(r);
  }

  /** Both default routes have "/" just before their last character. */
  lemma DigitBeforeLastIsNotDefault(r: string)
    requires |r| >= 2 && IsDigit(r[|r| - 2])
    ensures !IsDefaultRoute(r)
  {
    assert "0.0.0.0/0"[7] == '/' && "::/0"[2] == '/';
  }

  /** Such a route is reported as a bad CIDR at its index. */
  lemma IPv4PrefixOver32Reported(a: string, b: string)
    requires IsDottedQuadShape(a) && |b| == 2 && AllDigits(b) && DigitsValue(b) > 32
    ensures var r := a + "/" + b; CheckRoutes([r]) == Some(BadCidr(0, r))
  {
    IPv4PrefixOver32Refused(a, b);
  }

  /** A character of a joined sequence of digit fields is a digit or the separator. */
  lemma JoinSplitMember(f: seq<string>, sep: char, i: nat)
    requires |f| >= 1 && forall k :: 0 <= k < |f| ==> AllDigits(f[k])
    requires !IsDigit(sep)
    requires i < |Join(f, [sep])|
    ensures IsDigit(Join(f, [sep])[i]) || Join(f, [sep])[i] == sep
    decreases |f|
  {
    if |f| > 1 {
      var rest := Join(f[1..], [sep]);
      assert Join(f, [sep]) == f[0] + [sep] + rest;
      if i > |f[0]| {
        JoinSplitMember(f[1..], sep, i - |f[0]| - 1);
      }
    }
  }

  /** A route with no slash is refused for its shape. */
  lemma RouteWithoutSlashRefused(r: string)
    requires !IsDefaultRoute(r) && '/' !in r
    ensures CheckRoutes([r]) == Some(BadRouteFormat(0, r))
  {
  }

  /** The dangerous-character refusals of the source's own target tests. */
  lemma TargetDangerousExamples()
    ensures CheckTarget("host;evil") == Some(DangerousChar(';'))
    ensures CheckTarget("host|evil") == Some(DangerousChar('|'))
  {
    var semi, pipe := "host;evil", "host|evil";
    assert TargetDangerous[0] == ';' && TargetDangerous[1] == '&' && TargetDangerous[2] == '|';
    assert semi[4] == ';';
    FirstListedHead(semi, TargetDangerous);
    assert pipe[4] == '|';
    assert ';' !in pipe && '&' !in pipe;
    FirstListedSkip(pipe, TargetDangerous);
    FirstListedSkip(pipe, TargetDangerous[1..]);
    assert TargetDangerous[1..][1..] == TargetDangerous[2..];
    FirstListedHead(pipe, TargetDangerous[2..]);
  }

  /** A label longer than a DNS name is refused for its length alone. */
  lemma LongTargetRefused(n: nat)
    requires n > MaxHostnameLen
    ensures CheckTarget(Repeat('a', n)) == Some(TargetTooLong)
  {
    var long := Repeat('a', n);
    assert IndexOf(long, '.') == -1;
    assert IsLabel(long);
    PatternExcludesDangerous(long);
    Utf8LenAscii(long);
  }
}
