/**
 * The bounded output buffer the CLI wrapper gives a child process for its
 * stdout and stderr, how the captured bytes are read as UTF-8 text, and
 * the list of places where the tailscale binary is looked for when it is
 * not on the PATH.
 */
module Utils {
  import opened Wrappers
  import opened Text

  newtype byte = x: int | 0 <= x < 256

  /** All chunks one after the other. */
  function Flatten(chunks: seq<seq<byte>>): (r: seq<byte>)
  {
    if |chunks| == 0 then [] else Flatten(chunks[..|chunks| - 1]) + chunks[|chunks| - 1]
  }

  /** The first `limit` bytes of `s`, or all of `s` when it is shorter. */
  function Capped(s: seq<byte>, limit: nat): (r: seq<byte>)
    ensures |r| == if |s| <= limit then |s| else limit
    ensures r == s[..|r|]
  {
    if |s| <= limit then s else s[..limit]
  }

  /** U+FFFD, the character Go reads for a byte that starts no valid UTF-8 sequence. */
  const Replacement: char := '\U{FFFD}'

  predicate IsContinuation(x: byte) {
    0x80 <= x <= 0xBF
  }

  /** The length of the UTF-8 sequence led by `b0`, or 0 when no sequence starts with it. */
  function SequenceLength(b0: byte): nat {
    if b0 < 0x80 then 1
    else if 0xC2 <= b0 <= 0xDF then 2
    else if 0xE0 <= b0 <= 0xEF then 3
    else if 0xF0 <= b0 <= 0xF4 then 4
    else 0
  }

  /**
   * Whether `b1` may follow the leading byte `b0`; after E0, ED, F0 and F4
   * the range is narrower, which refuses overlong forms, surrogates and code
   * points above U+10FFFF.
   */
  predicate SecondByteFits(b0: byte, b1: byte) {
    if b0 == 0xE0 then 0xA0 <= b1 <= 0xBF
    else if b0 == 0xED then 0x80 <= b1 <= 0x9F
    else if b0 == 0xF0 then 0x90 <= b1 <= 0xBF
    else if b0 == 0xF4 then 0x80 <= b1 <= 0x8F
    else IsContinuation(b1)
  }

  /**
   * utf8.DecodeRune: the character at the start of `b` and the number of
   * bytes it takes. A byte that does not start a complete valid sequence
   * reads as U+FFFD and takes one byte.
   */
  function DecodeRune(b: seq<byte>): (r: (char, nat))
    requires |b| > 0
    ensures 1 <= r.1 <= |b| && r.1 <= 4
    ensures b[0] < 0x80 ==> r == (b[0] as int as char, 1)
  {
    var n := SequenceLength(b[0]);
    if n == 1 then (b[0] as int as char, 1)
    else if n == 0 || |b| < n || !SecondByteFits(b[0], b[1]) then (Replacement, 1)
    else if n == 2 then
      (((b[0] as int - 0xC0) * 64 + (b[1] as int - 0x80)) as char, 2)
    else if !IsContinuation(b[2]) then (Replacement, 1)
    else if n == 3 then
      (((b[0] as int - 0xE0) * 4096 + (b[1] as int - 0x80) * 64 + (b[2] as int - 0x80)) as char, 3)
    else if !IsContinuation(b[3]) then (Replacement, 1)
    else
      (((b[0] as int - 0xF0) * 262144 + (b[1] as int - 0x80) * 4096 + (b[2] as int - 0x80) * 64 + (b[3] as int - 0x80)) as char, 4)
  }

  /**
   * Output bytes as the text Go holds in `buf.String()`, read character by
   * character as utf8.DecodeRune reads it: each invalid byte is U+FFFD,
   * which is also what json.Marshal writes for it.
   */
  function Utf8Decode(b: seq<byte>): (r: string)
    ensures |r| <= |b|
    decreases |b|
  {
    if |b| == 0 then "" else var d := DecodeRune(b); [d.0] + Utf8Decode(b[d.1..])
  }

  /** utf8.EncodeRune: the UTF-8 bytes of one character. */
  function EncodeRune(c: char): (r: seq<byte>)
    ensures |r| == Utf8Width(c)
  {
    var x := c as int;
    if x < 0x80 then [x as byte]
    else if x < 0x800 then [(0xC0 + x / 64) as byte, (0x80 + x % 64) as byte]
    else if x < 0x10000 then [(0xE0 + x / 4096) as byte, (0x80 + (x / 64) % 64) as byte, (0x80 + x % 64) as byte]
    else [(0xF0 + x / 262144) as byte, (0x80 + (x / 4096) % 64) as byte, (0x80 + (x / 64) % 64) as byte, (0x80 + x % 64) as byte]
  }

  /** []byte(s): the UTF-8 encoding of a string, as long as Go's len says. */
  function Utf8Encode(s: string): (r: seq<byte>)
    ensures |r| == Utf8Len(s)
  {
    if |s| == 0 then [] else EncodeRune(s[0]) + Utf8Encode(s[1..])
  }

  lemma DecodeEncodedTwo(c: char, rest: seq<byte>)
    requires 0x80 <= c as int < 0x800
    ensures DecodeRune(EncodeRune(c) + rest) == (c, 2)
  {
    var b := EncodeRune(c) + rest;
    assert b[0] as int == 0xC0 + c as int / 64 && b[1] as int == 0x80 + c as int % 64;
  }

  lemma DecodeEncodedThree(c: char, rest: seq<byte>)
    requires 0x800 <= c as int < 0x10000
    ensures DecodeRune(EncodeRune(c) + rest) == (c, 3)
  {
    var x := c as int;
    var b := EncodeRune(c) + rest;
    var h, m, l := x / 4096, (x / 64) % 64, x % 64;
    assert x == h * 4096 + m * 64 + l;
    assert b[0] as int == 0xE0 + h && b[1] as int == 0x80 + m && b[2] as int == 0x80 + l;
    assert SecondByteFits(b[0], b[1]);
  }

  /** A code point written as its leading bits and three six-bit digits. */
  lemma SixBitDigits(x: int)
    requires 0 <= x
    ensures x == (x / 262144) * 262144 + ((x / 4096) % 64) * 4096 + ((x / 64) % 64) * 64 + x % 64
  {
    var y := x / 64;
    var z := y / 64;
    assert x == y * 64 + x % 64;
    assert y == z * 64 + y % 64;
    assert z == (z / 64) * 64 + z % 64;
    assert x / 4096 == z && x / 262144 == z / 64;
  }

  lemma DecodeEncodedFour(c: char, rest: seq<byte>)
    requires 0x10000 <= c as int
    ensures DecodeRune(EncodeRune(c) + rest) == (c, 4)
  {
    var x := c as int;
    var b := EncodeRune(c) + rest;
    var h, u, m, l := x / 262144, (x / 4096) % 64, (x / 64) % 64, x % 64;
    SixBitDigits(x);
    assert b[0] as int == 0xF0 + h && b[1] as int == 0x80 + u && b[2] as int == 0x80 + m && b[3] as int == 0x80 + l;
    assert SecondByteFits(b[0], b[1]);
  }

  /** Decoding reads back the character an encoding starts with, whatever follows it. */
  lemma DecodeEncodedRune(c: char, rest: seq<byte>)
    ensures DecodeRune(EncodeRune(c) + rest) == (c, |EncodeRune(c)|)
  {
    var x := c as int;
    if x < 0x80 {
    } else if x < 0x800 {
      DecodeEncodedTwo(c, rest);
    } else if x < 0x10000 {
      DecodeEncodedThree(c, rest);
    } else {
      DecodeEncodedFour(c, rest);
    }
  }

  /** Decoding the UTF-8 encoding of any text gives the text back. */
  lemma {:induction false} DecodeEncoded(s: string)
    ensures Utf8Decode(Utf8Encode(s)) == s
    decreases |s|
  {
    if |s| > 0 {
      var e := EncodeRune(s[0]);
      var rest := Utf8Encode(s[1..]);
      DecodeEncodedRune(s[0], rest);
      assert (e + rest)[|e|..] == rest;
      DecodeEncoded(s[1..]);
    }
  }

  /** On ASCII output the text has one character per byte, equal to it. */
  lemma {:induction false} DecodeAscii(b: seq<byte>)
    requires forall i :: 0 <= i < |b| ==> b[i] < 0x80
    ensures |Utf8Decode(b)| == |b|
    ensures forall i :: 0 <= i < |b| ==> Utf8Decode(b)[i] as int == b[i] as int
    decreases |b|
  {
    if |b| > 0 {
      DecodeAscii(b[1..]);
    }
  }

  /**
   * The two bytes of U+00E0 are one character, which TrimSpace keeps; a
   * stray byte is U+FFFD and the ASCII byte after it is read on its own.
   */
  lemma DecodeExamples()
    ensures Utf8Decode([0xC3, 0xA0]) == "\U{E0}"
    ensures TrimSpace(Utf8Decode([0xC3, 0xA0])) == "\U{E0}"
    ensures Utf8Decode([0xFF, 0x41]) == [Replacement, 'A']
  {
    var a: seq<byte> := [0xC3, 0xA0];
    assert DecodeRune(a) == ('\U{E0}', 2);
    assert a[2..] == [];
    assert !IsSpace('\U{E0}');
    var b: seq<byte> := [0xFF, 0x41];
    assert DecodeRune(b) == (Replacement, 1);
    assert b[1..] == [0x41];
    var c: seq<byte> := [0x41];
    assert c[1..] == [];
  }

  /** Capping after an append is capping before it and taking what still fits of the appended bytes. */
  lemma CappedAppend(a: seq<byte>, p: seq<byte>, limit: nat)
    ensures var c := Capped(a, limit);
            Capped(a + p, limit) == if |c| + |p| <= limit then c + p
                                    else if |c| < limit then c + p[..limit - |c|]
                                    else c
  {
    var c := Capped(a, limit);
    if |a| <= limit {
      if |c| + |p| > limit {
        assert (a + p)[..limit] == a + p[..limit - |a|];
      }
    } else {
      assert (a + p)[..limit] == a[..limit];
    }
  }

  lemma {:induction false} FlattenAppend(chunks: seq<seq<byte>>, more: seq<seq<byte>>)
    ensures Flatten(chunks + more) == Flatten(chunks) + Flatten(more)
    decreases |more|
  {
    if |more| > 0 {
      var all := chunks + more;
      assert all[..|all| - 1] == chunks + more[..|more| - 1];
      FlattenAppend(chunks, more[..|more| - 1]);
    } else {
      assert chunks + more == chunks;
    }
  }

  /** A bytes.Buffer: a byte sequence that writes extend in place. */
  class ByteBuffer {
    var bytes: seq<byte>

    constructor ()
      ensures bytes == []
    {
      bytes := [];
    }

    method Write(p: seq<byte>)
      modifies this
      ensures bytes == old(bytes) + p
    {
      bytes := bytes + p;
    }
  }

  /** The error a limit writer returns once its limit is reached. */
  datatype OverflowError = OutputExceeds(limit: nat)

  /**
   * limitWriter: forwards writes to a buffer until `limit` bytes have been
   * written, then writes only what still fits and reports the overflow.
   * `offered` records every byte passed to Write since creation; the buffer
   * then holds its original contents followed by the first `limit` of them.
   */
  class LimitWriter {
    const w: ByteBuffer
    var n: int
    const limit: nat
    ghost var offered: seq<byte>
    ghost const base: seq<byte>

    ghost predicate Valid()
      reads this, w
    {
      0 <= n <= limit &&
      w.bytes == base + Capped(offered, limit) &&
      n == |Capped(offered, limit)|
    }

    /** newLimitWriter */
    constructor (w: ByteBuffer, limit: nat)
      ensures this.w == w && this.limit == limit && n == 0
      ensures offered == [] && base == w.bytes && Valid()
    {
      this.w := w;
      this.limit := limit;
      n := 0;
      offered := [];
      base := w.bytes;
    }

    method Write(p: seq<byte>) returns (count: int, err: Option<OverflowError>)
      requires Valid()
      modifies this, w
      ensures Valid() && offered == old(offered) + p
      ensures old(n) + |p| <= limit ==>
                count == |p| && err == None && n == old(n) + |p| && w.bytes == old(w.bytes) + p
      ensures old(n) + |p| > limit ==>
                count == limit - old(n) && err == Some(OutputExceeds(limit)) && n == limit &&
                w.bytes == old(w.bytes) + p[..limit - old(n)]
    {
      CappedAppend(offered, p, limit);
      offered := offered + p;
      if n + |p| > limit {
        var remaining := limit - n;
        if remaining > 0 {
          w.Write(p[..remaining]);
          n := n + remaining;
        }
        return remaining, Some(OutputExceeds(limit));
      }
      w.Write(p);
      n := n + |p|;
      return |p|, None;
    }
  }

  /**
   * What a child's output stream leaves behind when it is copied into a
   * fresh buffer through a limit writer, chunk by chunk, stopping at the
   * first write error (as the copy into a non-file writer does). The buffer
   * holds the output cut at exactly `limit` bytes, and the error is reported
   * exactly when the output was longer.
   */
  method Capture(chunks: seq<seq<byte>>, limit: nat) returns (captured: seq<byte>, err: Option<OverflowError>)
    ensures captured == Capped(Flatten(chunks), limit)
    ensures err.Some? <==> |Flatten(chunks)| > limit
    ensures err.Some? ==> err == Some(OutputExceeds(limit))
  {
    var buf := new ByteBuffer();
    var lw := new LimitWriter(buf, limit);
    var i := 0;
    err := None;
    while i < |chunks| && err.None?
      invariant 0 <= i <= |chunks|
      invariant lw.w == buf && lw.limit == limit && lw.base == [] && lw.Valid()
      invariant lw.offered == Flatten(chunks[..i])
      invariant err.None? <==> |lw.offered| <= limit
      invariant err.Some? ==> err == Some(OutputExceeds(limit))
    {
      assert chunks[..i + 1][..i] == chunks[..i];
      var _, e := lw.Write(chunks[i]);
      err := e;
      i := i + 1;
    }
    captured := buf.bytes;
    FlattenAppend(chunks[..i], chunks[i..]);
    assert chunks[..i] + chunks[i..] == chunks;
    if i < |chunks| {
      CappedAppend(lw.offered, Flatten(chunks[i..]), limit);
      assert Capped(Flatten(chunks), limit) == Capped(lw.offered, limit);
    } else {
      assert chunks[..i] == chunks;
    }
  }

  // ---------------------------------------------------------------------------
  // getTailscaleFallbackPaths
  // ---------------------------------------------------------------------------

  datatype GoOS = Windows | Darwin | OtherOS(name: string)

  predicate IsWindowsSlash(c: char) {
    c == '\\' || c == '/'
  }

  function DropLeadingSlashes(e: string): (r: string)
    ensures |r| == 0 || !IsWindowsSlash(r[0])
  {
    if |e| > 0 && IsWindowsSlash(e[0]) then DropLeadingSlashes(e[1..]) else e
  }

  /**
   * filepath.Join on Windows, before the final Clean: the first non-empty
   * element is taken as is; after a slash the next element loses its
   * leading slashes; after a ':' (a drive name) no separator is inserted;
   * otherwise a backslash is.
   */
  function WindowsJoinFrom(acc: string, elems: seq<string>): string
    decreases |elems|
  {
    if |elems| == 0 then acc
    else
      var e := elems[0];
      var next :=
        if |acc| == 0 then e
        else if IsWindowsSlash(acc[|acc| - 1]) then acc + DropLeadingSlashes(e)
        else if acc[|acc| - 1] == ':' then acc + e
        else acc + "\\" + e;
      WindowsJoinFrom(next, elems[1..])
  }

  function WindowsJoin(elems: seq<string>): string {
    WindowsJoinFrom("", elems)
  }

  /** A Windows path is absolute when it has a drive name followed by a slash. */
  predicate IsWindowsAbsolute(p: string) {
    |p| >= 3 && p[1] == ':' && IsWindowsSlash(p[2])
  }

  predicate IsUnixAbsolute(p: string) {
    |p| >= 1 && p[0] == '/'
  }

  predicate IsAbsoluteOn(os: GoOS, p: string) {
    if os == Windows then IsWindowsAbsolute(p) else IsUnixAbsolute(p)
  }

  /** getTailscaleFallbackPaths as written: the Windows entries join onto a bare "C:". */
  function FallbackPathsAsWritten(os: GoOS): seq<string> {
    match os
    case Windows => [
      WindowsJoin(["C:", "Program Files", "Tailscale", "tailscale.exe"]),
      WindowsJoin(["C:", "Program Files (x86)", "Tailscale", "tailscale.exe"])
    ]
    case Darwin => ["/usr/local/bin/tailscale", "/opt/homebrew/bin/tailscale", "/usr/bin/tailscale"]
    case OtherOS(_) => [
      "/usr/bin/tailscale", "/usr/local/bin/tailscale", "/opt/tailscale/bin/tailscale", "/snap/bin/tailscale"
    ]
  }

  /** Joining a drive and three plain elements. */
  lemma JoinUnderDrive(drive: string, a: string, b: string, c: string)
    requires |drive| > 0 && |a| > 0 && |b| > 0 && |c| > 0
    requires !IsWindowsSlash(a[0]) && !IsWindowsSlash(b[0]) && !IsWindowsSlash(c[0])
    requires !IsWindowsSlash(a[|a| - 1]) && a[|a| - 1] != ':'
    requires !IsWindowsSlash(b[|b| - 1]) && b[|b| - 1] != ':'
    ensures var d := drive[|drive| - 1];
            var head := if IsWindowsSlash(d) || d == ':' then drive + a else drive + "\\" + a;
            WindowsJoin([drive, a, b, c]) == head + "\\" + b + "\\" + c
  {
    var d := drive[|drive| - 1];
    var head := if IsWindowsSlash(d) || d == ':' then drive + a else drive + "\\" + a;
    assert [drive, a, b, c][1..] == [a, b, c];
    assert [a, b, c][1..] == [b, c];
    assert [b, c][1..] == [c];
    assert WindowsJoin([drive, a, b, c]) == WindowsJoinFrom(drive, [a, b, c]);
    assert WindowsJoinFrom(drive, [a, b, c]) == WindowsJoinFrom(head, [b, c]);
    assert head[|head| - 1] == a[|a| - 1];
    var h2 := head + "\\" + b;
    assert WindowsJoinFrom(head, [b, c]) == WindowsJoinFrom(h2, [c]);
    assert h2[|h2| - 1] == b[|b| - 1];
    assert WindowsJoinFrom(h2, [c]) == WindowsJoinFrom(h2 + "\\" + c, []);
  }

  /** As written, the Windows entries are relative to the current directory of drive C. */
  lemma WindowsFallbackIsDriveRelative()
    ensures FallbackPathsAsWritten(Windows) ==
      ["C:" + "Program Files" + "\\" + "Tailscale" + "\\" + "tailscale.exe",
       "C:" + "Program Files (x86)" + "\\" + "Tailscale" + "\\" + "tailscale.exe"]
    ensures forall i :: 0 <= i < 2 ==> !IsWindowsAbsolute(FallbackPathsAsWritten(Windows)[i])
  {
    JoinUnderDrive("C:", "Program Files", "Tailscale", "tailscale.exe");
    JoinUnderDrive("C:", "Program Files (x86)", "Tailscale", "tailscale.exe");
  }

  /** The fallback list with the Windows entries rooted at "C:\", the evident intent. */
  function FallbackPaths(os: GoOS): (r: seq<string>)
  {
    match os
    case Windows => [
      WindowsJoin(["C:\\", "Program Files", "Tailscale", "tailscale.exe"]),
      WindowsJoin(["C:\\", "Program Files (x86)", "Tailscale", "tailscale.exe"])
    ]
    case Darwin => FallbackPathsAsWritten(Darwin)
    case OtherOS(name) => FallbackPathsAsWritten(OtherOS(name))
  }

  /**
   * Every platform gets a list of at least two absolute paths, with the
   * Windows entries under "C:\Program Files".
   */
  lemma FallbackPathsAbsolute(os: GoOS)
    ensures |FallbackPaths(os)| >= 2
    ensures forall i :: 0 <= i < |FallbackPaths(os)| ==> IsAbsoluteOn(os, FallbackPaths(os)[i])
    ensures os == Windows ==>
      FallbackPaths(os) ==
        ["C:\\" + "Program Files" + "\\" + "Tailscale" + "\\" + "tailscale.exe",
         "C:\\" + "Program Files (x86)" + "\\" + "Tailscale" + "\\" + "tailscale.exe"]
  {
    if os == Windows {
      JoinUnderDrive("C:\\", "Program Files", "Tailscale", "tailscale.exe");
      JoinUnderDrive("C:\\", "Program Files (x86)", "Tailscale", "tailscale.exe");
    }
  }
}
