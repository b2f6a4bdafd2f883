/** Newline framing: `send_line` with partial sends on one side, reassembly from arbitrary
    chunks on the other. */
module Framing {
  import opened Text

  // ---- splitting a buffer into lines -----------------------------------------------------

  datatype Framed = Framed(lines: seq<string>, rest: string)

  /** The complete lines of a buffer and its unterminated tail. */
  function Split(buffer: string): Framed
    decreases |buffer|
  {
    var n := Span(buffer, NotNewline);
    if n == |buffer| then Framed([], buffer) else
      var more := Split(buffer[n + 1..]);
      Framed([buffer[..n]] + more.lines, more.rest)
  }

  lemma SplitLine(line: string, tail: string)
    requires All(line, NotNewline)
    ensures Split(line + ("\n" + tail)) == Framed([line] + Split(tail).lines, Split(tail).rest)
  {
    var b := line + ("\n" + tail);
    SpanStops(line, "\n" + tail, NotNewline);
    assert b[..|line|] == line && b[|line| + 1..] == tail;
  }

  lemma SplitTail(tail: string)
    requires All(tail, NotNewline)
    ensures Split(tail) == Framed([], tail)
  {
    SpanStops(tail, [], NotNewline);
    assert tail + [] == tail;
  }

  lemma {:induction false} SplitRest(buffer: string)
    ensures All(Split(buffer).rest, NotNewline)
    ensures forall i :: 0 <= i < |Split(buffer).lines| ==> All(Split(buffer).lines[i], NotNewline)
    decreases |buffer|
  {
    var n := Span(buffer, NotNewline);
    if n < |buffer| {
      SplitRest(buffer[n + 1..]);
    } else {
      assert buffer[..n] == buffer;
    }
  }

  lemma FirstLine(buffer: string) returns (line: string, tail: string)
    requires Span(buffer, NotNewline) < |buffer|
    ensures All(line, NotNewline) && buffer == line + ("\n" + tail)
  {
    var n := Span(buffer, NotNewline);
    line, tail := buffer[..n], buffer[n + 1..];
  }

  /** Appending to the buffer only appends lines: what was complete stays as it was. */
  lemma {:induction false} SplitAppend(a: string, b: string)
    ensures Split(a + b).lines == Split(a).lines + Split(Split(a).rest + b).lines
    ensures Split(a + b).rest == Split(Split(a).rest + b).rest
    decreases |a|
  {
    hide Split, All;
    if Span(a, NotNewline) == |a| {
      assert a[..|a|] == a;
      SplitTail(a);
    } else {
      var line, tail := FirstLine(a);
      assert a + b == line + ("\n" + (tail + b));
      SplitLine(line, tail);
      SplitLine(line, tail + b);
      SplitAppend(tail, b);
    }
  }

  // ---- chunks -----------------------------------------------------------------------------

  function Concat(chunks: seq<string>): string {
    if chunks == [] then [] else chunks[0] + Concat(chunks[1..])
  }

  /** What a receiver takes off its buffer while the chunks arrive one by one. */
  function Feed(buffer: string, chunks: seq<string>): Framed
    decreases |chunks|
  {
    if chunks == [] then Framed([], buffer) else
      var now := Split(buffer + chunks[0]);
      var later := Feed(now.rest, chunks[1..]);
      Framed(now.lines + later.lines, later.rest)
  }

  /** The lines taken depend on the bytes only, not on where the chunks were cut. */
  lemma {:induction false} ChunkingIrrelevant(buffer: string, chunks: seq<string>)
    requires All(buffer, NotNewline)
    ensures Feed(buffer, chunks) == Split(buffer + Concat(chunks))
    decreases |chunks|
  {
    if chunks == [] {
      SplitTail(buffer);
      assert buffer + Concat(chunks) == buffer;
    } else {
      var a := buffer + chunks[0];
      SplitRest(a);
      ChunkingIrrelevant(Split(a).rest, chunks[1..]);
      SplitAppend(a, Concat(chunks[1..]));
      assert buffer + Concat(chunks) == a + Concat(chunks[1..]);
    }
  }

  // ---- messages ---------------------------------------------------------------------------

  /** The bytes of a list of messages, one line each. */
  function Stream(messages: seq<string>): string {
    if messages == [] then [] else messages[0] + ("\n" + Stream(messages[1..]))
  }

  lemma {:induction false} StreamAppend(messages: seq<string>, message: string)
    ensures Stream(messages + [message]) == Stream(messages) + (message + "\n")
  {
    if messages == [] {
      assert messages + [message] == [message];
    } else {
      assert (messages + [message])[1..] == messages[1..] + [message];
      StreamAppend(messages[1..], message);
    }
  }

  ghost predicate OneLineEach(messages: seq<string>) {
    forall i :: 0 <= i < |messages| ==> All(messages[i], NotNewline)
  }

  lemma SplitNothing()
    ensures Split("") == Framed([], "")
  {}

  lemma {:induction false} SplitStream(messages: seq<string>)
    requires OneLineEach(messages)
    ensures Split(Stream(messages)) == Framed(messages, [])
    decreases |messages|
  {
    hide Split;
    if messages == [] {
      SplitNothing();
    } else {
      SplitStream(messages[1..]);
      SplitLine(messages[0], Stream(messages[1..]));
      assert messages == [messages[0]] + messages[1..];
    }
  }

  lemma PrefixOfLine(message: string, later: string, sent: string)
    requires sent <= message + ("\n" + later)
    ensures |sent| <= |message| ==> sent <= message
    ensures |sent| > |message| ==>
              sent == message + ("\n" + sent[|message| + 1..]) && sent[|message| + 1..] <= later
  {
    var all := message + ("\n" + later);
    if |sent| > |message| {
      assert sent[..|message|] == all[..|message|] == message;
      assert sent[|message|] == all[|message|] == '\n';
      assert all[|message| + 1..] == later;
    }
  }

  lemma PrefixSingleLine(s: string, prefix: string)
    requires prefix <= s && All(s, NotNewline)
    ensures All(prefix, NotNewline)
  {}

  /** At any moment of a transfer, with `sent` a prefix of the stream, the receiver has exactly the
      first messages in order, and its buffer is the unterminated beginning of the next. */
  lemma {:induction false} PrefixFraming(messages: seq<string>, sent: string) returns (k: nat)
    requires OneLineEach(messages) && sent <= Stream(messages)
    ensures k <= |messages| && Split(sent).lines == messages[..k]
    ensures if k < |messages| then Split(sent).rest <= messages[k] else Split(sent).rest == []
    decreases |messages|
  {
    hide Split, All;
    if messages == [] {
      k := 0;
      assert sent == [];
      SplitStream([]);
    } else {
      PrefixOfLine(messages[0], Stream(messages[1..]), sent);
      if |sent| <= |messages[0]| {
        k := 0;
        PrefixSingleLine(messages[0], sent);
        SplitTail(sent);
      } else {
        var tail := sent[|messages[0]| + 1..];
        SplitLine(messages[0], tail);
        var j := PrefixFraming(messages[1..], tail);
        k := j + 1;
        assert messages[..k] == [messages[0]] + messages[1..][..j];
      }
    }
  }

  // ---- send_line ----------------------------------------------------------------------------

  /** How many of `n` bytes the kernel takes when successive `send` calls report `attempts`; a
      report that is not positive, or no further report, ends the transfer. */
  function Delivered(attempts: seq<int>, n: nat): (k: nat)
    ensures k <= n
  {
    if n == 0 || attempts == [] || attempts[0] <= 0 then 0
    else if attempts[0] >= n then n
    else attempts[0] + Delivered(attempts[1..], n - attempts[0])
  }

  class Socket {
    var wire: string

    constructor ()
      ensures wire == ""
    {
      wire := "";
    }

    /** One `send`: at most the offered bytes, or a failure. */
    method Send(data: string, attempt: int) returns (sent: int)
      modifies this
      ensures attempt <= 0 ==> sent <= 0 && wire == old(wire)
      ensures attempt > 0 ==> sent == (if attempt < |data| then attempt else |data|) && wire == old(wire) + data[..sent]
    {
      if attempt <= 0 {
        return attempt;
      }
      sent := if attempt < |data| then attempt else |data|;
      wire := wire + data[..sent];
    }
  }

  /** `send_line`: the payload and a newline, resumed after every partial send. It reports success
      exactly when everything was taken; after a failure a proper prefix is on the wire. */
  method SendLine(socket: Socket, payload: string, attempts: seq<int>) returns (ok: bool)
    modifies socket
    ensures var data := payload + "\n";
            var k := Delivered(attempts, |data|);
            socket.wire == old(socket.wire) + data[..k] && (ok <==> k == |data|)
  {
    var data := payload + "\n";
    var total := 0;
    var call := 0;
    ghost var before := socket.wire;
    while total < |data|
      invariant total <= |data| && call <= |attempts|
      invariant socket.wire == before + data[..total]
      invariant Delivered(attempts, |data|) == total + Delivered(attempts[call..], |data| - total)
      decreases |attempts| - call
    {
      if call == |attempts| {
        return false;
      }
      var sent := socket.Send(data[total..], attempts[call]);
      assert attempts[call..][1..] == attempts[call + 1..];
      if sent <= 0 {
        return false;
      }
      assert data[..total + sent] == data[..total] + data[total..][..sent];
      total := total + sent;
      call := call + 1;
    }
    return true;
  }

  /** The bytes on the wire after sending every message with its own pattern of partial sends. */
  function WireOf(messages: seq<string>, patterns: seq<seq<int>>): string
    requires |patterns| == |messages|
  {
    if messages == [] then [] else
      var data := messages[0] + "\n";
      data[..Delivered(patterns[0], |data|)] + WireOf(messages[1..], patterns[1..])
  }

  lemma {:induction false} CompleteSends(messages: seq<string>, patterns: seq<seq<int>>)
    requires |patterns| == |messages|
    requires forall i :: 0 <= i < |messages| ==> Delivered(patterns[i], |messages[i]| + 1) == |messages[i]| + 1
    ensures WireOf(messages, patterns) == Stream(messages)
  {
    hide Delivered;
    if messages != [] {
      CompleteSends(messages[1..], patterns[1..]);
      var data := messages[0] + "\n";
      assert data[..|data|] == data;
    }
  }

  /** The chunks carry the bytes of the messages, each sent completely in its own pattern of partial sends. */
  ghost predicate Carries(messages: seq<string>, patterns: seq<seq<int>>, chunks: seq<string>) {
    && |patterns| == |messages|
    && (forall i :: 0 <= i < |messages| ==> Delivered(patterns[i], |messages[i]| + 1) == |messages[i]| + 1)
    && Concat(chunks) == WireOf(messages, patterns)
  }

  /** End to end: for every list of one-line messages, every pattern of partial sends that succeeds
      and every way of cutting the bytes into chunks, the receiver takes exactly those messages, in
      order, once each, and nothing is left over. */
  lemma EndToEndFraming(messages: seq<string>, patterns: seq<seq<int>>, chunks: seq<string>)
    requires OneLineEach(messages) && Carries(messages, patterns, chunks)
    ensures Feed("", chunks) == Framed(messages, "") && Split(Concat(chunks)) == Framed(messages, "")
  {
    CompleteSends(messages, patterns);
    ChunkingIrrelevant("", chunks);
    assert "" + Concat(chunks) == Concat(chunks);
    SplitStream(messages);
  }
}
