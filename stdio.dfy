/**
 * The stdio transport: a read loop over the lines of standard input, one
 * reply per non-blank line, each written as its JSON body followed by one
 * newline.
 *
 * The input is given whole: the lines the scanner yields, whether it then
 * stops on a read error or at end of input, and the number of loop steps
 * after which the context is found done, if it ever is. Decoding a line is
 * the oracle `parse`. Encoding a reply and writing to standard output are
 * the oracle `Sink`: json.Marshal may fail, and each of the two writes of
 * a reply may fail; a failure is logged, the reply is dropped or left
 * without its newline, and the loop goes on.
 */
module Stdio {
  import opened Wrappers
  import opened McpTypes
  import opened Dispatch

  datatype Cancellation = Cancellation(afterSteps: nat, cause: ContextError)

  datatype Input = Input(lines: seq<string>, readError: Option<string>, cancel: Option<Cancellation>)

  /** The reply a line receives: none for a blank line, else exactly one. */
  function ReplyFor(line: string, parse: string -> Envelope, s: ServerModel): seq<Reply> {
    if line == "" then [] else [HandleMessage(parse(line), s)]
  }

  /** The replies to a sequence of lines, in order. */
  function Replies(lines: seq<string>, parse: string -> Envelope, s: ServerModel): seq<Reply> {
    if |lines| == 0 then []
    else Replies(lines[..|lines| - 1], parse, s) + ReplyFor(lines[|lines| - 1], parse, s)
  }

  /** The non-blank lines, in order. */
  function NonBlank(lines: seq<string>): (r: seq<string>)
    ensures forall i :: 0 <= i < |r| ==> r[i] != ""
  {
    if |lines| == 0 then []
    else NonBlank(lines[..|lines| - 1]) + (if lines[|lines| - 1] == "" then [] else [lines[|lines| - 1]])
  }

  /**
   * The encoder and the writer behind writeMessage: the marshalled body of a
   * reply or the marshal error's text, and for the k-th message sent, the
   * error of its body write and of its newline write, if they fail.
   */
  datatype Sink = Sink(encode: Reply -> Result<string, string>, bodyWrite: nat -> Option<string>, newlineWrite: nat -> Option<string>)

  /** What writeMessage writes for the k-th message: the body, then "\n", stopping at the first failure. */
  function Frame(r: Reply, sink: Sink, k: nat): seq<string> {
    match sink.encode(r)
    case Err(_) => []
    case Ok(body) =>
      if sink.bodyWrite(k).Some? then []
      else if sink.newlineWrite(k).Some? then [body]
      else [body, "\n"]
  }

  /** The error writeMessage returns for the k-th message, wrapped as it wraps it. */
  function SendError(r: Reply, sink: Sink, k: nat): Option<string> {
    match sink.encode(r)
    case Err(e) => Some("marshal error: " + e)
    case Ok(_) =>
      if sink.bodyWrite(k).Some? then Some("write error: " + sink.bodyWrite(k).value)
      else if sink.newlineWrite(k).Some? then Some("write newline error: " + sink.newlineWrite(k).value)
      else None
  }

  /** A message that is marshalled and whose two writes succeed. */
  predicate Delivered(r: Reply, sink: Sink, k: nat) {
    sink.encode(r).Ok? && sink.bodyWrite(k).None? && sink.newlineWrite(k).None?
  }

  /**
   * writeMessage writes a prefix of the body and its newline: nothing when
   * marshalling or the body write fails, the bare body when only the
   * newline fails, and both exactly when it reports no error.
   */
  lemma FrameOutcomes(r: Reply, sink: Sink, k: nat)
    ensures sink.encode(r).Err? ==> Frame(r, sink, k) == [] && SendError(r, sink, k) == Some("marshal error: " + sink.encode(r).error)
    ensures sink.encode(r).Ok? && sink.bodyWrite(k).Some? ==>
            Frame(r, sink, k) == [] && SendError(r, sink, k) == Some("write error: " + sink.bodyWrite(k).value)
    ensures sink.encode(r).Ok? && sink.bodyWrite(k).None? && sink.newlineWrite(k).Some? ==>
            Frame(r, sink, k) == [sink.encode(r).value] && SendError(r, sink, k) == Some("write newline error: " + sink.newlineWrite(k).value)
    ensures SendError(r, sink, k).None? <==> Delivered(r, sink, k)
    ensures Delivered(r, sink, k) ==> Frame(r, sink, k) == [sink.encode(r).value, "\n"]
  {
  }

  /** What writeMessage writes for a sequence of replies, the first being message number `base`. */
  function Frames(replies: seq<Reply>, sink: Sink, base: nat): seq<string> {
    if |replies| == 0 then []
    else Frames(replies[..|replies| - 1], sink, base) + Frame(replies[|replies| - 1], sink, base + |replies| - 1)
  }

  /** How many lines are read before the loop stops. */
  function Processed(input: Input): nat {
    if input.cancel.Some? && input.cancel.value.afterSteps < |input.lines| then input.cancel.value.afterSteps
    else |input.lines|
  }

  /**
   * What Start returns: ctx.Err() once the context is found done, else,
   * when the lines run out, the wrapped read error, or nil at end of input.
   */
  function StartResult(input: Input): Option<StopError> {
    if input.cancel.Some? && input.cancel.value.afterSteps <= |input.lines| then Some(ContextStopped(input.cancel.value.cause))
    else if input.readError.Some? then Some(Failed("stdin read error: " + input.readError.value, false))
    else None
  }

  /**
   * Every non-blank line gets exactly one reply, the routing of that line,
   * in input order; a blank line gets none. Identified messages and
   * notifications alike are answered.
   */
  lemma {:induction false} OneReplyPerNonBlankLine(lines: seq<string>, parse: string -> Envelope, s: ServerModel)
    ensures |Replies(lines, parse, s)| == |NonBlank(lines)|
    ensures forall i :: 0 <= i < |NonBlank(lines)| ==> Replies(lines, parse, s)[i] == HandleMessage(parse(NonBlank(lines)[i]), s)
  {
    if |lines| > 0 {
      OneReplyPerNonBlankLine(lines[..|lines| - 1], parse, s);
    }
  }

  /** Concatenated inputs give concatenated non-blank lines. */
  lemma {:induction false} NonBlankAppend(a: seq<string>, b: seq<string>)
    ensures NonBlank(a + b) == NonBlank(a) + NonBlank(b)
  {
    if |b| == 0 {
      assert a + b == a;
    } else {
      var b' := b[..|b| - 1];
      assert (a + b)[..|a + b| - 1] == a + b';
      NonBlankAppend(a, b');
    }
  }

  /** Concatenated inputs give concatenated replies. */
  lemma {:induction false} RepliesAppend(a: seq<string>, b: seq<string>, parse: string -> Envelope, s: ServerModel)
    ensures Replies(a + b, parse, s) == Replies(a, parse, s) + Replies(b, parse, s)
  {
    if |b| == 0 {
      assert a + b == a;
    } else {
      var b' := b[..|b| - 1];
      assert (a + b)[..|a + b| - 1] == a + b';
      RepliesAppend(a, b', parse, s);
    }
  }

  /** Reading one more line adds that line's reply, if any. */
  lemma RepliesStep(lines: seq<string>, i: nat, parse: string -> Envelope, s: ServerModel)
    requires i < |lines|
    ensures Replies(lines[..i + 1], parse, s) == Replies(lines[..i], parse, s) + ReplyFor(lines[i], parse, s)
  {
    assert lines[..i + 1][..i] == lines[..i];
  }

  /** Appending one reply appends its frame. */
  lemma FramesStep(replies: seq<Reply>, r: Reply, sink: Sink, base: nat)
    ensures Frames(replies + [r], sink, base) == Frames(replies, sink, base) + Frame(r, sink, base + |replies|)
  {
    assert (replies + [r])[..|replies|] == replies;
  }

  /** Output that grows by one step keeps the earlier output as its prefix. */
  lemma GrowsBy<T>(out: seq<T>, start: seq<T>, written: seq<T>, step: seq<T>, whole: seq<T>)
    requires out == start + written + step && whole == written + step
    ensures out == start + whole
  {
  }

  /** A blank line anywhere in the input adds no non-blank line. */
  lemma BlankLineNotCounted(a: seq<string>, b: seq<string>)
    ensures NonBlank(a + [""] + b) == NonBlank(a + b)
  {
    var blank: seq<string> := [""];
    assert blank[..0] == [];
    assert NonBlank(blank) == [];
    NonBlankAppend(a, blank);
    assert NonBlank(a + blank) == NonBlank(a);
    NonBlankAppend(a + blank, b);
    NonBlankAppend(a, b);
  }

  /** A blank line anywhere in the input changes nothing in the output. */
  lemma BlankLineSkipped(a: seq<string>, b: seq<string>, parse: string -> Envelope, s: ServerModel)
    ensures Replies(a + [""] + b, parse, s) == Replies(a + b, parse, s)
  {
    var blank: seq<string> := [""];
    assert blank[..0] == [];
    assert Replies(blank, parse, s) == [];
    RepliesAppend(a, blank, parse, s);
    assert Replies(a + blank, parse, s) == Replies(a, parse, s);
    RepliesAppend(a + blank, b, parse, s);
    RepliesAppend(a, b, parse, s);
  }

  /**
   * When every message is marshalled and written, each reply is framed as
   * its body followed by exactly one newline.
   */
  lemma {:induction false} FramesLayout(replies: seq<Reply>, sink: Sink, base: nat)
    requires forall i :: 0 <= i < |replies| ==> Delivered(replies[i], sink, base + i)
    ensures |Frames(replies, sink, base)| == 2 * |replies|
    ensures forall i :: 0 <= i < |replies| ==>
              sink.encode(replies[i]).Ok? && Frames(replies, sink, base)[2 * i] == sink.encode(replies[i]).value && Frames(replies, sink, base)[2 * i + 1] == "\n"
  {
    if |replies| > 0 {
      var n := |replies| - 1;
      FramesLayout(replies[..n], sink, base);
      assert Delivered(replies[n], sink, base + n);
    }
  }

  /** However the sink fails, no reply writes more than its body and one newline. */
  lemma {:induction false} FramesBound(replies: seq<Reply>, sink: Sink, base: nat)
    ensures |Frames(replies, sink, base)| <= 2 * |replies|
  {
    if |replies| > 0 {
      FramesBound(replies[..|replies| - 1], sink, base);
    }
  }

  /**
   * The loop stops with ctx.Err() when the context is found done, with a
   * wrapped "stdin read error" when the scanner fails, and with nil at end
   * of input; it never stops because of a message.
   */
  lemma StopOutcomes(input: Input)
    ensures input.cancel.Some? && input.cancel.value.afterSteps <= |input.lines| ==>
            StartResult(input) == Some(ContextStopped(input.cancel.value.cause)) && Processed(input) == input.cancel.value.afterSteps
    ensures (input.cancel.None? || input.cancel.value.afterSteps > |input.lines|) ==>
            Processed(input) == |input.lines| &&
            (StartResult(input).None? <==> input.readError.None?) &&
            (input.readError.Some? ==> StartResult(input).value.text == "stdin read error: " + input.readError.value)
  {
  }

  class StdioServer {
    const server: ServerModel
    /** The writes that reached standard output, in order. */
    var out: seq<string>
    /** How many messages writeMessage has been asked to send. */
    var sent: nat

    /** NewStdioServer. */
    constructor (server: ServerModel)
      ensures this.server == server && out == [] && sent == 0
    {
      this.server := server;
      out := [];
      sent := 0;
    }

    /**
     * writeMessage: marshal, write the body, write a newline; the first
     * failure is returned and ends the message.
     */
    method WriteMessage(reply: Reply, sink: Sink) returns (err: Option<string>)
      modifies this
      ensures out == old(out) + Frame(reply, sink, old(sent)) && sent == old(sent) + 1
      ensures err == SendError(reply, sink, old(sent))
    {
      var k := sent;
      sent := sent + 1;
      var data := sink.encode(reply);
      if data.Err? {
        return Some("marshal error: " + data.error);
      }
      var bodyErr := sink.bodyWrite(k);
      if bodyErr.Some? {
        return Some("write error: " + bodyErr.value);
      }
      out := out + [data.value];
      var newlineErr := sink.newlineWrite(k);
      if newlineErr.Some? {
        return Some("write newline error: " + newlineErr.value);
      }
      out := out + ["\n"];
      err := None;
    }

    /** handleMessage: route the line and send its one reply, returning the send's error. */
    method HandleLine(line: string, parse: string -> Envelope, sink: Sink) returns (err: Option<string>)
      modifies this
      ensures out == old(out) + Frame(HandleMessage(parse(line), server), sink, old(sent)) && sent == old(sent) + 1
      ensures err == SendError(HandleMessage(parse(line), server), sink, old(sent))
    {
      var reply := HandleMessage(parse(line), server);
      err := WriteMessage(reply, sink);
    }

    /** One turn of the loop: a line is read and, unless blank, answered after the replies sent so far. */
    method ReadLine(line: string, parse: string -> Envelope, sink: Sink, ghost start: seq<string>, ghost base: nat, ghost replies: seq<Reply>)
      requires out == start + Frames(replies, sink, base) && sent == base + |replies|
      modifies this
      ensures out == start + Frames(replies + ReplyFor(line, parse, server), sink, base)
      ensures sent == base + |replies + ReplyFor(line, parse, server)|
    {
      if line == "" {
        assert replies + ReplyFor(line, parse, server) == replies;
      } else {
        var reply := HandleMessage(parse(line), server);
        FramesStep(replies, reply, sink, base);
        ghost var written := Frames(replies, sink, base);
        // The send's error is only logged.
        var sendErr := HandleLine(line, parse, sink);
        GrowsBy(out, start, written, Frame(reply, sink, base + |replies|), Frames(replies + [reply], sink, base));
      }
    }

    /**
     * Start: the loop reads the lines until it is stopped, sending one reply
     * for every non-blank line it reads; a failed send is logged and the
     * loop goes on.
     */
    method Start(input: Input, parse: string -> Envelope, sink: Sink) returns (err: Option<StopError>)
      modifies this
      ensures err == StartResult(input)
      ensures out == old(out) + Frames(Replies(input.lines[..Processed(input)], parse, server), sink, old(sent))
      ensures sent == old(sent) + |Replies(input.lines[..Processed(input)], parse, server)|
    {
      var i := 0;
      assert input.lines[..0] == [];
      while i < |input.lines| && !(input.cancel.Some? && input.cancel.value.afterSteps == i)
        invariant 0 <= i <= |input.lines|
        invariant input.cancel.Some? ==> i <= input.cancel.value.afterSteps
        invariant out == old(out) + Frames(Replies(input.lines[..i], parse, server), sink, old(sent))
        invariant sent == old(sent) + |Replies(input.lines[..i], parse, server)|
      {
        RepliesStep(input.lines, i, parse, server);
        ReadLine(input.lines[i], parse, sink, old(out), old(sent), Replies(input.lines[..i], parse, server));
        i := i + 1;
      }
      // The context is looked at before each read, so it wins over the end of input.
      assert i == Processed(input);
      if input.cancel.Some? && input.cancel.value.afterSteps == i {
        return Some(ContextStopped(input.cancel.value.cause));
      }
      if input.readError.Some? {
        return Some(Failed("stdin read error: " + input.readError.value, false));
      }
      return None;
    }
  }
}
