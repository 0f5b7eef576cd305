/**
 * String helpers with the meaning of the Go standard-library functions the
 * source calls (strings.Contains, strings.TrimSpace, strconv.Atoi, fmt's %d
 * and %q, ...). Strings are sequences of characters; Go's len counts the
 * bytes of their UTF-8 encoding, which Utf8Len gives.
 */
module Text {
  import opened Wrappers

  /** strings.HasPrefix */
  predicate HasPrefix(s: string, p: string) {
    |p| <= |s| && s[..|p|] == p
  }

  /** strings.HasSuffix */
  predicate HasSuffix(s: string, p: string) {
    |p| <= |s| && s[|s| - |p|..] == p
  }

  /** strings.Contains */
  predicate Contains(s: string, sub: string)
    decreases |s|
  {
    HasPrefix(s, sub) || (|s| > 0 && Contains(s[1..], sub))
  }

  /** A concatenation starts with its first part and ends with its second. */
  lemma AppendEnds(a: string, b: string)
    ensures HasPrefix(a + b, a) && HasSuffix(a + b, b)
  {
    assert (a + b)[..|a|] == a;
    assert (a + b)[|a + b| - |b|..] == b;
  }

  /** A string of five parts starts with the first, ends with the last two and holds the middle three. */
  lemma FiveParts(a: string, b1: string, b2: string, c: string, d: string)
    ensures HasPrefix(a + b1 + b2 + c + d, a)
    ensures HasSuffix(a + b1 + b2 + c + d, c + d)
    ensures Contains(a + b1 + b2 + c + d, b1 + b2 + c)
  {
    var t := a + b1 + b2 + c + d;
    assert t == a + ((b1 + b2 + c) + d);
    AppendEnds(a, (b1 + b2 + c) + d);
    assert t == (a + b1 + b2) + (c + d);
    AppendEnds(a + b1 + b2, c + d);
    AppendEnds(b1 + b2 + c, d);
    ContainsExtendLeft(a, (b1 + b2 + c) + d, b1 + b2 + c);
  }

  /** strings.ContainsAny: some character of `s` is one of `chars`. */
  predicate ContainsAny(s: string, chars: string) {
    exists i :: 0 <= i < |s| && s[i] in chars
  }

  /** strings.TrimSuffix */
  function TrimSuffix(s: string, suffix: string): (r: string)
    ensures HasSuffix(s, suffix) ==> r + suffix == s
    ensures !HasSuffix(s, suffix) ==> r == s
  {
    if HasSuffix(s, suffix) then s[..|s| - |suffix|] else s
  }

  /** strings.LastIndex for a single character; -1 when absent. */
  function LastIndexOf(s: string, c: char): (r: int)
    ensures -1 <= r < |s|
    ensures r >= 0 ==> s[r] == c && forall j :: r < j < |s| ==> s[j] != c
    ensures r == -1 ==> c !in s
  {
    if |s| == 0 then -1
    else if s[|s| - 1] == c then |s| - 1
    else LastIndexOf(s[..|s| - 1], c)
  }

  /** unicode.IsSpace: the characters with Unicode's White_Space property. */
  predicate IsSpace(c: char) {
    c == ' ' || c == '\t' || c == '\n' || c == '\r' || c == '\U{000B}' || c == '\U{000C}'
    || c == '\U{0085}' || c == '\U{00A0}' || c == '\U{1680}' || ('\U{2000}' <= c <= '\U{200A}')
    || c == '\U{2028}' || c == '\U{2029}' || c == '\U{202F}' || c == '\U{205F}' || c == '\U{3000}'
  }

  function TrimLeft(s: string): (r: string)
    ensures |r| <= |s| && r == s[|s| - |r|..]
    ensures |r| > 0 ==> !IsSpace(r[0])
    ensures forall i :: 0 <= i < |s| - |r| ==> IsSpace(s[i])
  {
    if |s| > 0 && IsSpace(s[0]) then TrimLeft(s[1..]) else s
  }

  function TrimRight(s: string): (r: string)
    ensures |r| <= |s| && r == s[..|r|]
    ensures |r| > 0 ==> !IsSpace(r[|r| - 1])
    ensures forall i :: |r| <= i < |s| ==> IsSpace(s[i])
  {
    if |s| > 0 && IsSpace(s[|s| - 1]) then TrimRight(s[..|s| - 1]) else s
  }

  /** strings.TrimSpace */
  function TrimSpace(s: string): string {
    TrimRight(TrimLeft(s))
  }

  /** strings.Join */
  function Join(parts: seq<string>, sep: string): string {
    if |parts| == 0 then ""
    else if |parts| == 1 then parts[0]
    else parts[0] + sep + Join(parts[1..], sep)
  }

  /** strings.Repeat of a one-character string. */
  function Repeat(c: char, n: nat): (r: string)
    ensures |r| == n && forall i :: 0 <= i < n ==> r[i] == c
  {
    if n == 0 then "" else [c] + Repeat(c, n - 1)
  }

  /**
   * strings.ToLower, one character at a time, as far as it reaches ASCII:
   * the upper-case ASCII letters, and the two characters outside ASCII that
   * Go lowers into it, U+0130 to 'i' and U+212A (the Kelvin sign) to 'k'.
   * Every other character is kept; Go lowers some of them by the Unicode
   * tables, always to another character outside ASCII.
   */
  function ToLowerChar(c: char): (r: char)
    ensures (r as int < 0x80) <==> (c as int < 0x80 || c == '\U{130}' || c == '\U{212A}')
  {
    if 'A' <= c <= 'Z' then (c as int + 32) as char
    else if c == '\U{130}' then 'i'
    else if c == '\U{212A}' then 'k'
    else c
  }

  function ToLower(s: string): (r: string)
    ensures |r| == |s| && forall i :: 0 <= i < |s| ==> r[i] == ToLowerChar(s[i])
  {
    if |s| == 0 then "" else [ToLowerChar(s[0])] + ToLower(s[1..])
  }

  /** Text of lower-case ASCII letters is its own lower case. */
  lemma LowerAsciiKept(s: string)
    requires forall i :: 0 <= i < |s| ==> 'a' <= s[i] <= 'z'
    ensures ToLower(s) == s
  {
  }

  /** Lower-casing twice is lower-casing once. */
  lemma ToLowerIdempotent(s: string)
    ensures ToLower(ToLower(s)) == ToLower(s)
  {
    assert forall i :: 0 <= i < |s| ==> ToLowerChar(ToLowerChar(s[i])) == ToLowerChar(s[i]);
  }

  predicate IsDigit(c: char) {
    '0' <= c <= '9'
  }

  predicate AllDigits(s: string) {
    forall i :: 0 <= i < |s| ==> IsDigit(s[i])
  }

  function DigitChar(d: nat): char
    requires d < 10
  {
    "0123456789"[d]
  }

  function DigitValue(c: char): nat
    requires IsDigit(c)
  {
    c as int - '0' as int
  }

  /** fmt's %d of a natural number. */
  function NatToString(n: nat): string
    decreases n
  {
    if n < 10 then [DigitChar(n)] else NatToString(n / 10) + [DigitChar(n % 10)]
  }

  /** fmt's %d of an integer. */
  function IntToString(i: int): string {
    if i < 0 then "-" + NatToString(-i) else NatToString(i)
  }

  /** The value of a string of decimal digits. */
  function DigitsValue(s: string): nat
    requires AllDigits(s)
  {
    if |s| == 0 then 0 else DigitsValue(s[..|s| - 1]) * 10 + DigitValue(s[|s| - 1])
  }

  const MinInt64: int := -0x8000_0000_0000_0000
  const MaxInt64: int := 0x7FFF_FFFF_FFFF_FFFF

  /**
   * strconv.Atoi on a 64-bit platform: an optional sign followed by at least
   * one decimal digit, and a value that fits in 64 bits.
   */
  function Atoi(s: string): (r: Option<int>)
    ensures r.Some? ==> MinInt64 <= r.value <= MaxInt64
  {
    var neg := |s| > 0 && s[0] == '-';
    var digits := if |s| > 0 && (s[0] == '-' || s[0] == '+') then s[1..] else s;
    if |digits| == 0 || !AllDigits(digits) then None
    else
      var v: int := if neg then -(DigitsValue(digits) as int) else DigitsValue(digits);
      if MinInt64 <= v <= MaxInt64 then Some(v) else None
  }

  /** A lower-case hexadecimal digit. */
  function HexDigit(d: nat): (r: char)
    requires d < 16
    ensures '0' <= r <= '9' || 'a' <= r <= 'f'
  {
    if d < 10 then ('0' as int + d) as char else ('a' as int + d - 10) as char
  }

  /**
   * The escape that fmt's %q (strconv.Quote) applies to one character: the
   * quote and the backslash, the seven named control escapes, \xHH for the
   * other ASCII controls and DEL, and any other character as it is.
   */
  function QuoteChar(c: char): string {
    if c == '"' then "\\\""
    else if c == '\\' then "\\\\"
    else if c == '\U{0007}' then "\\a"
    else if c == '\U{0008}' then "\\b"
    else if c == '\U{000C}' then "\\f"
    else if c == '\n' then "\\n"
    else if c == '\r' then "\\r"
    else if c == '\t' then "\\t"
    else if c == '\U{000B}' then "\\v"
    else if c < ' ' || c == '\U{007F}' then ['\\', 'x', HexDigit(c as nat / 16), HexDigit(c as nat % 16)]
    else [c]
  }

  function QuoteBody(s: string): string {
    if |s| == 0 then "" else QuoteChar(s[0]) + QuoteBody(s[1..])
  }

  /** A character %q writes as it is. */
  predicate Unescaped(c: char) {
    ' ' <= c && c != '"' && c != '\\' && c != '\U{007F}'
  }

  /** A string of unescaped characters is quoted as itself between the quotes. */
  lemma {:induction false} QuotePlain(s: string)
    requires forall i :: 0 <= i < |s| ==> Unescaped(s[i])
    ensures QuoteBody(s) == s
  {
    if |s| > 0 {
      QuotePlain(s[1..]);
      assert s == [s[0]] + s[1..];
    }
  }

  /** The escape of one character holds no control character. */
  lemma QuoteCharPrintable(c: char)
    ensures forall i :: 0 <= i < |QuoteChar(c)| ==> ' ' <= QuoteChar(c)[i] && QuoteChar(c)[i] != '\U{007F}'
  {
  }

  /** The quoted body holds no control character, so %q's output is one printable line. */
  lemma {:induction false} QuoteBodyPrintable(s: string)
    ensures forall i :: 0 <= i < |QuoteBody(s)| ==> ' ' <= QuoteBody(s)[i] && QuoteBody(s)[i] != '\U{007F}'
  {
    if |s| > 0 {
      QuoteBodyPrintable(s[1..]);
      QuoteCharPrintable(s[0]);
    }
  }

  /** fmt's %q of a string. */
  function Quote(s: string): string {
    "\"" + QuoteBody(s) + "\""
  }

  lemma {:induction false} NatToStringDigits(n: nat)
    ensures |NatToString(n)| > 0 && AllDigits(NatToString(n))
    decreases n
  {
    if n >= 10 {
      NatToStringDigits(n / 10);
    }
  }

  /** Printing a number and reading it back gives the number. */
  lemma {:induction false} NatToStringRoundTrip(n: nat)
    ensures AllDigits(NatToString(n)) && DigitsValue(NatToString(n)) == n
    decreases n
  {
    NatToStringDigits(n);
    if n >= 10 {
      NatToStringRoundTrip(n / 10);
      var s := NatToString(n);
      assert s[..|s| - 1] == NatToString(n / 10);
    }
  }

  /** Atoi reads back what %d prints, for every 64-bit value. */
  lemma AtoiIntToString(i: int)
    requires MinInt64 <= i <= MaxInt64
    ensures Atoi(IntToString(i)) == Some(i)
  {
    if i < 0 {
      AtoiNegative(-i);
    } else {
      AtoiUnsigned(i);
    }
  }

  /** A minus sign before printed digits reads back as the negated number. */
  lemma AtoiNegative(n: nat)
    requires 0 < n <= -MinInt64
    ensures Atoi("-" + NatToString(n)) == Some(-(n as int))
  {
    var s := "-" + NatToString(n);
    NatToStringRoundTrip(n);
    NatToStringDigits(n);
    assert s[0] == '-' && s[1..] == NatToString(n);
  }

  /** Printed digits without a sign read back as the number. */
  lemma AtoiUnsigned(n: nat)
    requires n <= MaxInt64
    ensures Atoi(NatToString(n)) == Some(n)
  {
    var s := NatToString(n);
    NatToStringRoundTrip(n);
    NatToStringDigits(n);
    assert s[0] != '-' && s[0] != '+' by { assert IsDigit(s[0]); }
  }

  /** Containing a one-character string is containing that character. */
  lemma ContainsSingle(s: string, c: char)
    ensures Contains(s, [c]) <==> c in s
    decreases |s|
  {
    if |s| > 0 {
      ContainsSingle(s[1..], c);
      assert c in s <==> s[0] == c || c in s[1..];
    }
  }

  /** strings.IndexByte: the first position of `c`, or -1. */
  function IndexOf(s: string, c: char): (r: int)
    ensures -1 <= r < |s|
    ensures r >= 0 ==> s[r] == c && c !in s[..r]
    ensures r == -1 ==> c !in s
  {
    if |s| == 0 then -1
    else if s[0] == c then 0
    else
      var k := IndexOf(s[1..], c);
      if k < 0 then -1 else k + 1
  }

  /** strings.Split with a one-character separator. */
  function Split(s: string, sep: char): (r: seq<string>)
    ensures |r| >= 1
    ensures forall i :: 0 <= i < |r| ==> sep !in r[i]
    decreases |s|
  {
    var k := IndexOf(s, sep);
    if k < 0 then [s] else [s[..k]] + Split(s[k + 1..], sep)
  }

  /** Splitting and joining back with the same separator gives the original string. */
  lemma {:induction false} SplitJoin(s: string, sep: char)
    ensures Join(Split(s, sep), [sep]) == s
    decreases |s|
  {
    var k := IndexOf(s, sep);
    if k >= 0 {
      SplitJoin(s[k + 1..], sep);
      JoinCons(s[..k], Split(s[k + 1..], sep), [sep]);
      CutAt(s, k);
    }
  }

  /** Joining a part in front of at least one more puts the separator after it. */
  lemma JoinCons(a: string, rest: seq<string>, sep: string)
    requires |rest| >= 1
    ensures Join([a] + rest, sep) == a + sep + Join(rest, sep)
  {
    assert ([a] + rest)[0] == a && ([a] + rest)[1..] == rest;
  }

  /** A string is the part before a position, the character there, and the part after. */
  lemma CutAt(s: string, k: nat)
    requires k < |s|
    ensures s == s[..k] + [s[k]] + s[k + 1..]
  {
  }

  /** Containing a two-character string is having the two characters side by side. */
  lemma {:induction false} ContainsPair(s: string, a: char, b: char)
    ensures Contains(s, [a, b]) <==> exists i :: 0 <= i < |s| - 1 && s[i] == a && s[i + 1] == b
    decreases |s|
  {
    if |s| > 0 {
      ContainsPair(s[1..], a, b);
      if Contains(s, [a, b]) {
        if HasPrefix(s, [a, b]) {
          assert s[0] == a && s[1] == b;
        } else {
          var i :| 0 <= i < |s[1..]| - 1 && s[1..][i] == a && s[1..][i + 1] == b;
          assert s[i + 1] == a && s[i + 2] == b;
        }
      }
      if i :| 0 <= i < |s| - 1 && s[i] == a && s[i + 1] == b {
        if i > 0 {
          assert s[1..][i - 1] == a && s[1..][i] == b;
          assert Contains(s[1..], [a, b]);
        } else {
          assert s[..2] == [a, b];
          assert HasPrefix(s, [a, b]);
        }
      }
    }
  }

  predicate IsAlnum(c: char) {
    'a' <= c <= 'z' || 'A' <= c <= 'Z' || IsDigit(c)
  }

  predicate IsHexDigit(c: char) {
    IsDigit(c) || 'a' <= c <= 'f' || 'A' <= c <= 'F'
  }

  /** The number of bytes of the UTF-8 encoding of one character. */
  function Utf8Width(c: char): nat {
    if c as int < 0x80 then 1 else if c as int < 0x800 then 2 else if c as int < 0x10000 then 3 else 4
  }

  /** Go's len of a string: the length of its UTF-8 encoding. */
  function Utf8Len(s: string): (r: nat)
    ensures r >= |s|
  {
    if |s| == 0 then 0 else Utf8Width(s[0]) + Utf8Len(s[1..])
  }

  predicate IsAscii(s: string) {
    forall i :: 0 <= i < |s| ==> s[i] as int < 0x80
  }

  /** On ASCII text Go's byte length is the character count. */
  lemma {:induction false} Utf8LenAscii(s: string)
    requires IsAscii(s)
    ensures Utf8Len(s) == |s|
    decreases |s|
  {
    if |s| > 0 {
      Utf8LenAscii(s[1..]);
    }
  }

  /** No white space is left at either end of a trimmed string. */
  predicate Trimmed(s: string) {
    |s| == 0 || (!IsSpace(s[0]) && !IsSpace(s[|s| - 1]))
  }

  /** TrimSpace leaves a trimmed string, and one that occurs in its argument. */
  lemma TrimSpaceTrimmed(s: string)
    ensures Trimmed(TrimSpace(s))
    ensures |TrimSpace(s)| <= |s|
  {
    var t := TrimLeft(s);
    var r := TrimRight(t);
    if |r| > 0 {
      assert r[0] == t[0];
    }
  }

  /** TrimSpace leaves a trimmed string as it is. */
  lemma TrimSpaceOfTrimmed(s: string)
    requires Trimmed(s)
    ensures TrimSpace(s) == s
  {
  }

  /** A string found in `s` is still found once something is put in front of `s`. */
  lemma {:induction false} ContainsExtendLeft(x: string, s: string, sub: string)
    requires Contains(s, sub)
    ensures Contains(x + s, sub)
    decreases |x|
  {
    if |x| == 0 {
      assert x + s == s;
    } else {
      ContainsExtendLeft(x[1..], s, sub);
      assert (x + s)[1..] == x[1..] + s;
    }
  }

  /** Every part occurs in the joined string. */
  lemma {:induction false} JoinContainsParts(parts: seq<string>, sep: string)
    ensures forall i :: 0 <= i < |parts| ==> Contains(Join(parts, sep), parts[i])
    decreases |parts|
  {
    if |parts| == 1 {
      assert HasPrefix(parts[0], parts[0]);
    } else if |parts| > 1 {
      var rest := Join(parts[1..], sep);
      JoinContainsParts(parts[1..], sep);
      assert (parts[0] + sep + rest)[..|parts[0]|] == parts[0];
      forall i | 1 <= i < |parts|
        ensures Contains(Join(parts, sep), parts[i])
      {
        assert parts[1..][i - 1] == parts[i];
        ContainsExtendLeft(parts[0] + sep, rest, parts[i]);
      }
    }
  }
}
