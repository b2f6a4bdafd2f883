/** The `select` loop as a function of what the kernel reports: each turn, and each list of turns, is a
    definite run of the state machine; and what a connection sends is served line by line, whatever the
    chunks. */
module Rounds {
  import opened Text
  import opened Json
  import opened Framing
  import opened Alerting
  import opened Server
  import opened Hygiene

  // ---- one read ---------------------------------------------------------------------------------

  /** The clock readings of the k-th line of a read. */
  function ClockAt(clocks: seq<seq<string>>, k: nat): seq<string> {
    if k < |clocks| then clocks[k] else []
  }

  function TakeLines(i: nat, clocks: seq<seq<string>>, n: nat): (steps: seq<Step>)
    ensures |steps| == n
  {
    seq(n, k requires 0 <= k < n => TakeLine(i, ClockAt(clocks, k)))
  }

  /** `read_client`: nothing at the end of the file or on an error; otherwise one receive and one line step
      for every line that is then complete. */
  function ReadSteps(i: nat, buffer: string, chunk: string, clocks: seq<seq<string>>): seq<Step> {
    if chunk == "" then [] else [Receive(i, chunk)] + TakeLines(i, clocks, |Split(buffer + chunk).lines|)
  }

  // ---- one turn -----------------------------------------------------------------------------------

  datatype Arrival = Arrival(fd: int, peer: string)

  /** One turn of the `select` loop: what the kernel reports. A readable descriptor maps to the bytes
      `recv` returns, the empty text standing for end of file or an error. */
  datatype Round = Round(
    arrival: Option<Arrival>,
    readable: map<int, string>,
    errored: set<int>,
    clocks: map<int, seq<seq<string>>>)

  function Fds(clients: seq<Client>): (fds: seq<int>)
    ensures |fds| == |clients|
  {
    seq(|clients|, i requires 0 <= i < |clients| => clients[i].fd)
  }

  function Watched(clients: seq<Client>): set<int> {
    set fd | fd in Fds(clients)
  }

  /** `accept`: a negative descriptor is a failed call, and one that is open is never handed out. */
  function AcceptSteps(clients: seq<Client>, listener: int, arrival: Option<Arrival>): seq<Step> {
    if arrival.None? || arrival.value.fd < 0 || arrival.value.fd == listener || arrival.value.fd in Fds(clients)
    then [] else [Accept(arrival.value.fd, arrival.value.peer)]
  }

  function ClocksOf(round: Round, fd: int): seq<seq<string>> {
    if fd in round.clocks then round.clocks[fd] else []
  }

  /** What a turn does with one connection: it is read when its descriptor was watched, has no error and is
      readable. */
  function ClientSteps(round: Round, watched: set<int>, c: Client, i: nat): seq<Step> {
    if c.fd in watched && c.fd !in round.errored && c.fd in round.readable
    then ReadSteps(i, c.buffer, round.readable[c.fd], ClocksOf(round, c.fd)) else []
  }

  /** The first n connections, in order. */
  function ReadySteps(round: Round, watched: set<int>, clients: seq<Client>, n: nat): seq<Step>
    requires n <= |clients|
  {
    if n == 0 then [] else
      ReadySteps(round, watched, clients, n - 1) + ClientSteps(round, watched, clients[n - 1], n - 1)
  }

  /** Whether a turn ends the connection on a descriptor. */
  predicate Ends(round: Round, watched: set<int>, fd: int) {
    fd in watched && (fd in round.errored || (fd in round.readable && round.readable[fd] == ""))
  }

  /** The positions to erase, in ascending order. */
  function MarkedOf(round: Round, watched: set<int>, fds: seq<int>): seq<nat> {
    if fds == [] then [] else
      MarkedOf(round, watched, fds[..|fds| - 1]) + if Ends(round, watched, fds[|fds| - 1]) then [|fds| - 1] else []
  }

  /** Erasure from the last mark to the first. */
  function EndSteps(marked: seq<nat>): seq<Step> {
    if marked == [] then [] else [Disconnect(marked[|marked| - 1])] + EndSteps(marked[..|marked| - 1])
  }

  /** One turn: the accept, the reads, the disconnects. */
  ghost function RoundSteps(s: State, listener: int, round: Round): seq<Step> {
    var watched := Watched(s.clients);
    var accepts := AcceptSteps(s.clients, listener, round.arrival);
    var joined := RunSteps(s, accepts).clients;
    accepts + ReadySteps(round, watched, joined, |joined|) + EndSteps(MarkedOf(round, watched, Fds(joined)))
  }

  /** A list of turns, from the start. */
  ghost function StepsOf(listener: int, rounds: seq<Round>): seq<Step> {
    if rounds == [] then [] else
      var before := StepsOf(listener, rounds[..|rounds| - 1]);
      before + RoundSteps(RunSteps(START, before), listener, rounds[|rounds| - 1])
  }

  /** The descriptors accepted along a run, in order. */
  function AcceptedBy(steps: seq<Step>): seq<int> {
    if steps == [] then [] else
      AcceptedBy(steps[..|steps| - 1]) + if steps[|steps| - 1].Accept? then [steps[|steps| - 1].fd] else []
  }

  lemma {:induction false} AcceptedAppend(a: seq<Step>, b: seq<Step>)
    ensures AcceptedBy(a + b) == AcceptedBy(a) + AcceptedBy(b)
  {
    if b == [] {
      assert a + b == a;
    } else {
      assert (a + b)[..|a + b| - 1] == a + b[..|b| - 1];
      AcceptedAppend(a, b[..|b| - 1]);
    }
  }

  lemma {:induction false} AcceptsNothing(steps: seq<Step>)
    requires forall k :: 0 <= k < |steps| ==> !steps[k].Accept?
    ensures AcceptedBy(steps) == []
  {
    if steps != [] {
      AcceptsNothing(steps[..|steps| - 1]);
    }
  }

  // ---- what a read does ---------------------------------------------------------------------------------

  /** One line of the stream as `handle_line` sees it: trimmed, and skipped when nothing is left. */
  ghost function ServeLine(s: State, i: nat, line: string, clock: seq<string>): (r: State)
    requires i < |s.clients|
    ensures |r.clients| == |s.clients|
  {
    if Trim(line) == "" then s else Server.HandleLine(s, i, Trim(line), clock)
  }

  ghost function ServeLines(s: State, i: nat, lines: seq<string>, clocks: seq<seq<string>>): (r: State)
    requires i < |s.clients|
    ensures |r.clients| == |s.clients|
  {
    if lines == [] then s else
      ServeLine(ServeLines(s, i, lines[..|lines| - 1], clocks), i, lines[|lines| - 1], ClockAt(clocks, |lines| - 1))
  }

  /** What waits in the buffer has no part in serving a request. */
  lemma ServeIgnoresBuffer(s: State, i: nat, buffer: string, q: Request, clock: seq<string>)
    requires i < |s.clients|
    ensures Serve(SetBuffer(s, i, buffer), i, q, clock) == SetBuffer(Serve(s, i, q, clock), i, buffer)
  {
    hide Published, Replies, Advance, InputOf, NewRole;
    RepliesIgnoreBuffer(s.core, s.clients[i], buffer, q, clock);
    var a, b := Serve(SetBuffer(s, i, buffer), i, q, clock), SetBuffer(Serve(s, i, q, clock), i, buffer);
    forall k | 0 <= k < |s.clients|
      ensures a.clients[k] == b.clients[k]
    {}
    assert a.clients == b.clients;
  }

  lemma RepliesIgnoreBuffer(core: Core, c: Client, buffer: string, q: Request, clock: seq<string>)
    ensures Replies(core, c.(buffer := buffer), q, clock) == Replies(core, c, q, clock)
  {
    hide Greeting, AckText, ErrorText, RulesText, NewRole;
  }

  lemma ServeLineIgnoresBuffer(s: State, i: nat, buffer: string, line: string, clock: seq<string>)
    requires i < |s.clients|
    ensures ServeLine(SetBuffer(s, i, buffer), i, line, clock) == SetBuffer(ServeLine(s, i, line, clock), i, buffer)
  {
    hide Serve, Classify, Trim;
    ClassifyIgnoresBuffer(s.clients[i], buffer, Trim(line), clock);
    ServeIgnoresBuffer(s, i, buffer, Classify(s.clients[i], Trim(line), clock), clock);
  }

  lemma {:induction false} ServeLinesIgnoreBuffer(s: State, i: nat, buffer: string, lines: seq<string>, clocks: seq<seq<string>>)
    requires i < |s.clients|
    ensures ServeLines(SetBuffer(s, i, buffer), i, lines, clocks) == SetBuffer(ServeLines(s, i, lines, clocks), i, buffer)
  {
    hide ServeLine, SetBuffer;
    if lines != [] {
      var before, last, clock := lines[..|lines| - 1], lines[|lines| - 1], ClockAt(clocks, |lines| - 1);
      ServeLinesIgnoreBuffer(s, i, buffer, before, clocks);
      ServeLineIgnoresBuffer(ServeLines(s, i, before, clocks), i, buffer, last, clock);
    }
  }

  lemma SetTwice(s: State, i: nat, a: string, b: string)
    requires i < |s.clients|
    ensures SetBuffer(SetBuffer(s, i, a), i, b) == SetBuffer(s, i, b)
  {}

  lemma ServeLineBuffer(s: State, i: nat, line: string, clock: seq<string>, k: nat)
    requires i < |s.clients| && k < |s.clients|
    ensures ServeLine(s, i, line, clock).clients[k].buffer == s.clients[k].buffer
    ensures ServeLine(s, i, line, clock).clients[k].fd == s.clients[k].fd
  {
    hide Serve, Classify, Trim;
    ServeKeeps(s, i, Classify(s.clients[i], Trim(line), clock), clock, k);
  }

  lemma {:induction false} ServeLinesBuffer(s: State, i: nat, lines: seq<string>, clocks: seq<seq<string>>, k: nat)
    requires i < |s.clients| && k < |s.clients|
    ensures ServeLines(s, i, lines, clocks).clients[k].buffer == s.clients[k].buffer
    ensures ServeLines(s, i, lines, clocks).clients[k].fd == s.clients[k].fd
  {
    hide ServeLine;
    if lines != [] {
      ServeLinesBuffer(s, i, lines[..|lines| - 1], clocks, k);
      ServeLineBuffer(ServeLines(s, i, lines[..|lines| - 1], clocks), i, lines[|lines| - 1], ClockAt(clocks, |lines| - 1), k);
    }
  }

  /** A line step serves the first line of the buffer and leaves the rest. */
  lemma TakeServes(s: State, i: nat, clock: seq<string>)
    requires i < |s.clients| && HasLine(s.clients[i].buffer)
    ensures var b := s.clients[i].buffer;
            Do(s, TakeLine(i, clock)) == SetBuffer(ServeLine(s, i, Split(b).lines[0], clock), i, FirstOf(b).1)
  {
    hide Serve, Classify, Trim;
    var b := s.clients[i].buffer;
    var line, rest := b[..Span(b, NotNewline)], FirstOf(b).1;
    ServeLineIgnoresBuffer(s, i, rest, line, clock);
  }

  /** The buffer after k lines were taken off. */
  function After(b: string, k: nat): string {
    if k == 0 then b else FirstOf(After(b, k - 1)).1
  }

  lemma {:induction false} AfterSplit(b: string, k: nat)
    requires k <= |Split(b).lines|
    ensures Split(After(b, k)) == Framed(Split(b).lines[k..], Split(b).rest)
  {
    hide Trim, Span;
    if k > 0 {
      AfterSplit(b, k - 1);
      var c := After(b, k - 1);
      assert Split(b).lines[k - 1..][1..] == Split(b).lines[k..];
    }
  }

  lemma NoLines(b: string)
    requires Split(b).lines == []
    ensures Split(b).rest == b && !HasLine(b)
  {}

  lemma SomeLines(b: string)
    ensures HasLine(b) <==> Split(b).lines != []
  {}

  lemma TakeLinesSnoc(i: nat, clocks: seq<seq<string>>, n: nat)
    ensures TakeLines(i, clocks, n + 1) == TakeLines(i, clocks, n) + [TakeLine(i, ClockAt(clocks, n))]
  {}

  lemma {:induction false} TakesServe(s: State, i: nat, clocks: seq<seq<string>>, n: nat)
    requires i < |s.clients| && n <= |Split(s.clients[i].buffer).lines|
    ensures var b := s.clients[i].buffer;
            RunSteps(s, TakeLines(i, clocks, n)) == SetBuffer(ServeLines(s, i, Split(b).lines[..n], clocks), i, After(b, n))
  {
    hide Do, Split, ServeLine, SetBuffer, HasLine, FirstOf;
    var b := s.clients[i].buffer;
    var lines := Split(b).lines;
    if n == 0 {
      assert TakeLines(i, clocks, 0) == [];
      BufferOfItself(s, i);
    } else {
      var clock := ClockAt(clocks, n - 1);
      TakesServe(s, i, clocks, n - 1);
      TakeLinesSnoc(i, clocks, n - 1);
      var steps := TakeLines(i, clocks, n);
      assert steps[..|steps| - 1] == TakeLines(i, clocks, n - 1);
      var served := ServeLines(s, i, lines[..n - 1], clocks);
      var t := SetBuffer(served, i, After(b, n - 1));
      AfterSplit(b, n - 1);
      SomeLines(After(b, n - 1));
      TakeServes(t, i, clock);
      assert lines[n - 1..][0] == lines[n - 1];
      ServeLineIgnoresBuffer(served, i, After(b, n - 1), lines[n - 1], clock);
      SetTwice(ServeLine(served, i, lines[n - 1], clock), i, After(b, n - 1), After(b, n));
      assert lines[..n][..n - 1] == lines[..n - 1];
    }
  }

  lemma BufferOfItself(s: State, i: nat)
    requires i < |s.clients|
    ensures SetBuffer(s, i, s.clients[i].buffer) == s
  {
    assert s.clients[i := s.clients[i].(buffer := s.clients[i].buffer)] == s.clients;
  }

  /** The effect of one read: the lines now complete are served in order, the tail waits. */
  lemma ReadServes(s: State, i: nat, chunk: string, clocks: seq<seq<string>>)
    requires i < |s.clients| && All(s.clients[i].buffer, NotNewline)
    ensures var b := s.clients[i].buffer;
            var now := Split(b + chunk);
            RunSteps(s, ReadSteps(i, b, chunk, clocks)) == SetBuffer(ServeLines(s, i, now.lines, clocks), i, now.rest)
  {
    hide Do, Split, ServeLines, SetBuffer, TakeLines, All;
    var b := s.clients[i].buffer;
    if chunk == "" {
      assert b + chunk == b;
      SplitTail(b);
      ServeNoLines(s, i, clocks);
      BufferOfItself(s, i);
      RunNothing(s);
    } else {
      var now := Split(b + chunk);
      var t := SetBuffer(s, i, b + chunk);
      var n := |now.lines|;
      ReceiveSets(s, i, chunk);
      RunStepsAppend(s, [Receive(i, chunk)], TakeLines(i, clocks, n));
      TakesServe(t, i, clocks, n);
      assert now.lines[..n] == now.lines && now.lines[n..] == [];
      AfterSplit(b + chunk, n);
      NoLines(After(b + chunk, n));
      ServeLinesIgnoreBuffer(s, i, b + chunk, now.lines, clocks);
      SetTwice(ServeLines(s, i, now.lines, clocks), i, b + chunk, now.rest);
    }
  }

  lemma ServeNoLines(s: State, i: nat, clocks: seq<seq<string>>)
    requires i < |s.clients|
    ensures ServeLines(s, i, [], clocks) == s
  {}

  lemma RunNothing(s: State)
    ensures RunSteps(s, []) == s
  {}

  lemma ReceiveSets(s: State, i: nat, chunk: string)
    requires i < |s.clients|
    ensures RunSteps(s, [Receive(i, chunk)]) == SetBuffer(s, i, s.clients[i].buffer + chunk)
  {
    assert [Receive(i, chunk)][..0] == [];
    RunNothing(s);
  }

  // ---- any number of reads -----------------------------------------------------------------------------

  function ClocksFrom(clocks: seq<seq<string>>, n: nat): seq<seq<string>> {
    if n <= |clocks| then clocks[n..] else []
  }

  /** The reads of a list of chunks; the readings of the clock go on from line to line. */
  function ReadAll(i: nat, buffer: string, chunks: seq<string>, clocks: seq<seq<string>>): seq<Step> {
    if chunks == [] then [] else
      var n := |chunks| - 1;
      var sofar := Split(buffer + Concat(chunks[..n]));
      ReadAll(i, buffer, chunks[..n], clocks) + ReadSteps(i, sofar.rest, chunks[n], ClocksFrom(clocks, |sofar.lines|))
  }

  lemma {:induction false} ConcatSnoc(chunks: seq<string>, last: string)
    ensures Concat(chunks + [last]) == Concat(chunks) + last
  {
    if chunks == [] {
      assert chunks + [last] == [last];
    } else {
      assert (chunks + [last])[1..] == chunks[1..] + [last];
      ConcatSnoc(chunks[1..], last);
    }
  }

  lemma {:induction false} ServeLinesAppend(s: State, i: nat, a: seq<string>, b: seq<string>, clocks: seq<seq<string>>)
    requires i < |s.clients|
    ensures ServeLines(s, i, a + b, clocks) == ServeLines(ServeLines(s, i, a, clocks), i, b, ClocksFrom(clocks, |a|))
  {
    hide ServeLine;
    if b == [] {
      assert a + b == a;
    } else {
      assert (a + b)[..|a + b| - 1] == a + b[..|b| - 1];
      ServeLinesAppend(s, i, a, b[..|b| - 1], clocks);
    }
  }

  /** Server framing: for every state, connection and list of chunks, receiving the chunks serves exactly
      the complete lines of the buffer and all the bytes, in order, once each, and leaves the tail; where
      the chunks were cut does not show. */
  lemma {:induction false} ReadsServeLines(s: State, i: nat, chunks: seq<string>, clocks: seq<seq<string>>)
    requires i < |s.clients| && All(s.clients[i].buffer, NotNewline)
    ensures var b := s.clients[i].buffer;
            var all := Split(b + Concat(chunks));
            RunSteps(s, ReadAll(i, b, chunks, clocks)) == SetBuffer(ServeLines(s, i, all.lines, clocks), i, all.rest)
  {
    hide Do, RunSteps, Split, ServeLines, SetBuffer, ReadSteps, All;
    var b := s.clients[i].buffer;
    if chunks == [] {
      assert b + Concat(chunks) == b;
      SplitTail(b);
      ServeNoLines(s, i, clocks);
      BufferOfItself(s, i);
      RunNothing(s);
    } else {
      var n := |chunks| - 1;
      var bytes, last := b + Concat(chunks[..n]), chunks[n];
      var sofar := Split(bytes);
      ReadsServeLines(s, i, chunks[..n], clocks);
      var served := ServeLines(s, i, sofar.lines, clocks);
      var t := SetBuffer(served, i, sofar.rest);
      var rest := ClocksFrom(clocks, |sofar.lines|);
      SplitRest(bytes);
      RunStepsAppend(s, ReadAll(i, b, chunks[..n], clocks), ReadSteps(i, sofar.rest, last, rest));
      ReadServes(t, i, last, rest);
      var now := Split(sofar.rest + last);
      ServeLinesIgnoreBuffer(served, i, sofar.rest, now.lines, rest);
      SetTwice(ServeLines(served, i, now.lines, rest), i, sofar.rest, now.rest);
      ServeLinesAppend(s, i, sofar.lines, now.lines, clocks);
      SplitAppend(bytes, last);
      ConcatSnoc(chunks[..n], last);
      assert chunks == chunks[..n] + [last];
      assert bytes + last == b + Concat(chunks);
    }
  }

  // ---- whole turns -----------------------------------------------------------------------------------------

  /** No connection has a complete line waiting. */
  ghost predicate NoneWaiting(s: State) {
    forall k :: 0 <= k < |s.clients| ==> All(s.clients[k].buffer, NotNewline)
  }

  lemma ReadKeeps(s: State, i: nat, chunk: string, clocks: seq<seq<string>>)
    requires i < |s.clients| && NoneWaiting(s)
    ensures var t := RunSteps(s, ReadSteps(i, s.clients[i].buffer, chunk, clocks));
            && NoneWaiting(t) && |t.clients| == |s.clients|
            && (forall k :: 0 <= k < |s.clients| ==> t.clients[k].fd == s.clients[k].fd)
            && (forall k :: 0 <= k < |s.clients| && k != i ==> t.clients[k].buffer == s.clients[k].buffer)
  {
    hide RunSteps, Split, ServeLines, ReadSteps, All;
    var b := s.clients[i].buffer;
    var now := Split(b + chunk);
    ReadServes(s, i, chunk, clocks);
    SplitRest(b + chunk);
    forall k: nat | k < |s.clients|
      ensures ServeLines(s, i, now.lines, clocks).clients[k].buffer == s.clients[k].buffer
      ensures ServeLines(s, i, now.lines, clocks).clients[k].fd == s.clients[k].fd
    {
      ServeLinesBuffer(s, i, now.lines, clocks, k);
    }
  }

  /** Reading the first n connections leaves the buffers of the others, and no descriptor changes. */
  lemma {:induction false} ReadyKeeps(s: State, round: Round, watched: set<int>, n: nat)
    requires n <= |s.clients| && NoneWaiting(s)
    ensures var t := RunSteps(s, ReadySteps(round, watched, s.clients, n));
            && NoneWaiting(t) && |t.clients| == |s.clients|
            && (forall k :: 0 <= k < |s.clients| ==> t.clients[k].fd == s.clients[k].fd)
            && (forall k :: n <= k < |s.clients| ==> t.clients[k].buffer == s.clients[k].buffer)
  {
    hide RunSteps, ReadSteps, NoneWaiting;
    if n == 0 {
      RunNothing(s);
    } else {
      ReadyKeeps(s, round, watched, n - 1);
      var before := ReadySteps(round, watched, s.clients, n - 1);
      var more := ClientSteps(round, watched, s.clients[n - 1], n - 1);
      var t := RunSteps(s, before);
      RunStepsAppend(s, before, more);
      RunNothing(t);
      var fd := s.clients[n - 1].fd;
      if more != [] {
        ReadKeeps(t, n - 1, round.readable[fd], ClocksOf(round, fd));
      }
    }
  }

  lemma {:induction false} EndsKeep(s: State, marked: seq<nat>)
    requires NoneWaiting(s)
    ensures NoneWaiting(RunSteps(s, EndSteps(marked)))
    decreases |marked|
  {
    hide RunSteps, Do, NoneWaiting;
    if marked == [] {
      RunNothing(s);
    } else {
      var first, rest := Disconnect(marked[|marked| - 1]), EndSteps(marked[..|marked| - 1]);
      RunStepsAppend(s, [first], rest);
      RunOne(s, first);
      EndKeeps(s, marked[|marked| - 1]);
      EndsKeep(Do(s, first), marked[..|marked| - 1]);
    }
  }

  lemma RunOne(s: State, step: Step)
    ensures RunSteps(s, [step]) == Do(s, step)
  {
    hide Do;
    assert [step][..0] == [];
    RunNothing(s);
  }

  lemma EndKeeps(s: State, i: nat)
    requires NoneWaiting(s)
    ensures NoneWaiting(Do(s, Disconnect(i)))
  {
    hide All, Take;
  }

  lemma AcceptKeeps(s: State, listener: int, arrival: Option<Arrival>)
    requires NoneWaiting(s)
    ensures var t := RunSteps(s, AcceptSteps(s.clients, listener, arrival));
            NoneWaiting(t) && s.clients <= t.clients && |t.clients| <= |s.clients| + 1 && t.core == s.core
  {
    hide RunSteps, Take;
    assert All("", NotNewline);
    RunNothing(s);
    if arrival.Some? {
      RunOne(s, Accept(arrival.value.fd, arrival.value.peer));
    }
  }

  lemma RoundKeeps(s: State, listener: int, round: Round)
    requires NoneWaiting(s)
    ensures NoneWaiting(RunSteps(s, RoundSteps(s, listener, round)))
  {
    hide RunSteps, ReadySteps, EndSteps, MarkedOf, AcceptSteps, NoneWaiting;
    var watched := Watched(s.clients);
    var accepts := AcceptSteps(s.clients, listener, round.arrival);
    var t := RunSteps(s, accepts);
    var served := ReadySteps(round, watched, t.clients, |t.clients|);
    var marked := MarkedOf(round, watched, Fds(t.clients));
    AcceptKeeps(s, listener, round.arrival);
    RunStepsAppend(s, accepts, served);
    ReadyKeeps(t, round, watched, |t.clients|);
    RunStepsAppend(s, accepts + served, EndSteps(marked));
    EndsKeep(RunSteps(t, served), marked);
  }

  /** Between turns no complete line waits in any buffer. */
  lemma {:induction false} TurnsLeaveNothingWaiting(listener: int, rounds: seq<Round>)
    ensures NoneWaiting(RunSteps(START, StepsOf(listener, rounds)))
  {
    hide RunSteps, RoundSteps;
    if rounds == [] {
      RunNothing(START);
    } else {
      var before := rounds[..|rounds| - 1];
      TurnsLeaveNothingWaiting(listener, before);
      var s := RunSteps(START, StepsOf(listener, before));
      RoundKeeps(s, listener, rounds[|rounds| - 1]);
      RunStepsAppend(START, StepsOf(listener, before), RoundSteps(s, listener, rounds[|rounds| - 1]));
    }
  }

  // ---- clean turns give clean runs ---------------------------------------------------------------------------

  ghost predicate CleanClocks(clocks: seq<seq<string>>) {
    forall k :: 0 <= k < |clocks| ==> CleanClock(clocks[k])
  }

  ghost predicate CleanRound(round: Round) {
    && (round.arrival.Some? ==> Clean(round.arrival.value.peer))
    && (forall fd :: fd in round.readable ==> Clean(round.readable[fd]))
    && (forall fd :: fd in round.clocks ==> CleanClocks(round.clocks[fd]))
  }

  ghost predicate CleanRounds(rounds: seq<Round>) {
    forall n :: 0 <= n < |rounds| ==> CleanRound(rounds[n])
  }

  lemma CleanAppend(a: seq<Step>, b: seq<Step>)
    requires CleanSteps(a) && CleanSteps(b)
    ensures CleanSteps(a + b)
  {
    hide CleanStep;
  }

  lemma CleanRead(i: nat, buffer: string, chunk: string, clocks: seq<seq<string>>)
    requires Clean(chunk) && CleanClocks(clocks)
    ensures CleanSteps(ReadSteps(i, buffer, chunk, clocks))
  {
    hide Clean, Split;
  }

  lemma {:induction false} CleanReady(round: Round, watched: set<int>, clients: seq<Client>, n: nat)
    requires CleanRound(round) && n <= |clients|
    ensures CleanSteps(ReadySteps(round, watched, clients, n))
  {
    hide Clean, CleanClocks, ReadSteps, CleanStep;
    if n > 0 {
      CleanReady(round, watched, clients, n - 1);
      var c := clients[n - 1];
      if c.fd in round.readable {
        assert CleanClocks([]) by { NoClocks(); }
        CleanRead(n - 1, c.buffer, round.readable[c.fd], ClocksOf(round, c.fd));
      }
      CleanAppend(ReadySteps(round, watched, clients, n - 1), ClientSteps(round, watched, c, n - 1));
    }
  }

  lemma NoClocks()
    ensures CleanClocks([])
  {}

  lemma {:induction false} CleanEnds(marked: seq<nat>)
    ensures CleanSteps(EndSteps(marked))
    ensures forall k :: 0 <= k < |EndSteps(marked)| ==> EndSteps(marked)[k].Disconnect?
  {
    if marked != [] {
      CleanEnds(marked[..|marked| - 1]);
    }
  }

  /** When every peer label, every received byte and every clock reading of the turns is clean, so is the
      run they make: the theorems about clean runs apply to the loop. */
  lemma {:induction false} CleanTurns(listener: int, rounds: seq<Round>)
    requires CleanRounds(rounds)
    ensures CleanSteps(StepsOf(listener, rounds))
  {
    hide RunSteps, CleanStep, CleanRound, ReadySteps, EndSteps, MarkedOf, AcceptSteps;
    if rounds != [] {
      var before, round := rounds[..|rounds| - 1], rounds[|rounds| - 1];
      CleanTurns(listener, before);
      var s := RunSteps(START, StepsOf(listener, before));
      var watched := Watched(s.clients);
      var accepts := AcceptSteps(s.clients, listener, round.arrival);
      var t := RunSteps(s, accepts);
      CleanAccept(s.clients, listener, round);
      CleanReady(round, watched, t.clients, |t.clients|);
      CleanEnds(MarkedOf(round, watched, Fds(t.clients)));
      CleanAppend(accepts, ReadySteps(round, watched, t.clients, |t.clients|));
      CleanAppend(accepts + ReadySteps(round, watched, t.clients, |t.clients|), EndSteps(MarkedOf(round, watched, Fds(t.clients))));
      CleanAppend(StepsOf(listener, before), RoundSteps(s, listener, round));
    }
  }

  lemma CleanAccept(clients: seq<Client>, listener: int, round: Round)
    requires CleanRound(round)
    ensures CleanSteps(AcceptSteps(clients, listener, round.arrival))
  {
    hide Clean;
  }

  // ---- no byte is lost ------------------------------------------------------------------------------------------

  /** The connection that is at position k after the last step of a run was at this position before it, unless
      it is new. */
  ghost function Earlier(s: State, last: Step, k: nat): nat {
    if last.Disconnect? && last.index < |s.clients| && k >= last.index then k + 1 else k
  }

  /** Every byte the connection now at position k has sent. */
  ghost function HeardBy(steps: seq<Step>, k: nat): string {
    if steps == [] then "" else
      var s, last := RunSteps(START, steps[..|steps| - 1]), steps[|steps| - 1];
      if last.Accept? && k == |s.clients| then "" else
        HeardBy(steps[..|steps| - 1], Earlier(s, last, k)) + if last.Receive? && last.index == k then last.chunk else ""
  }

  /** Every line taken off its buffer, untrimmed. */
  ghost function TakenFrom(steps: seq<Step>, k: nat): seq<string> {
    if steps == [] then [] else
      var s, last := RunSteps(START, steps[..|steps| - 1]), steps[|steps| - 1];
      if last.Accept? && k == |s.clients| then [] else
        TakenFrom(steps[..|steps| - 1], Earlier(s, last, k)) +
        if last.TakeLine? && last.index == k && k < |s.clients| && HasLine(s.clients[k].buffer)
        then [Split(s.clients[k].buffer).lines[0]] else []
  }

  /** Conservation of bytes: in every run, what a connection sent is exactly the lines taken from it, each
      with its newline, and what waits in its buffer; nothing is lost, repeated or reordered, whatever the
      other connections do and however many come and go. */
  lemma {:induction false} NoByteIsLost(steps: seq<Step>, k: nat)
    requires k < |RunSteps(START, steps).clients|
    ensures Stream(TakenFrom(steps, k)) + RunSteps(START, steps).clients[k].buffer == HeardBy(steps, k)
    ensures OneLineEach(TakenFrom(steps, k))
  {
    hide Do, Stream, Split, HasLine, All;
    if steps != [] {
      var before, last := steps[..|steps| - 1], steps[|steps| - 1];
      var s := RunSteps(START, before);
      if last.Accept? && k == |s.clients| {
        NewIsSilent(s, last);
      } else {
        StepBuffers(s, last, k);
        NoByteIsLost(before, Earlier(s, last, k));
        if last.TakeLine? && last.index == k && HasLine(s.clients[k].buffer) {
          var b := s.clients[k].buffer;
          FirstTaken(b);
          StreamAppend(TakenFrom(before, k), Split(b).lines[0]);
          Regroup(Stream(TakenFrom(before, k)), Split(b).lines[0], FirstOf(b).1);
        } else {
          assert TakenFrom(steps, k) == TakenFrom(before, Earlier(s, last, k)) + [] == TakenFrom(before, Earlier(s, last, k));
        }
      }
    }
  }

  lemma Regroup(a: string, line: string, rest: string)
    ensures a + (line + "\n") + rest == a + (line + ("\n" + rest))
  {}

  lemma FirstTaken(b: string)
    requires HasLine(b)
    ensures Split(b).lines != [] && All(Split(b).lines[0], NotNewline)
    ensures b == Split(b).lines[0] + ("\n" + FirstOf(b).1)
  {
    hide Trim, Split, All;
    var line, tail := FirstLine(b);
    SplitLine(line, tail);
    SpanStops(line, "\n" + tail, NotNewline);
    assert (line + ("\n" + tail))[|line| + 1..] == tail;
  }

  lemma NewIsSilent(s: State, last: Step)
    requires last.Accept?
    ensures |Do(s, last).clients| == |s.clients| + 1 && Do(s, last).clients[|s.clients|].buffer == ""
    ensures Stream([]) + "" == ""
  {}

  /** Where a step leaves the buffers. */
  lemma StepBuffers(s: State, last: Step, k: nat)
    requires k < |Do(s, last).clients| && !(last.Accept? && k == |s.clients|)
    ensures Earlier(s, last, k) < |s.clients|
    ensures var b := s.clients[Earlier(s, last, k)].buffer;
            Do(s, last).clients[k].buffer ==
              if last.Receive? && last.index == k then b + last.chunk
              else if last.TakeLine? && last.index == k && HasLine(b) then FirstOf(b).1
              else b
  {
    hide Serve, Classify, FirstOf, HasLine;
    if last.TakeLine? && last.index < |s.clients| && HasLine(s.clients[last.index].buffer) {
      var (line, rest) := FirstOf(s.clients[last.index].buffer);
      var t := SetBuffer(s, last.index, rest);
      ServeKeeps(t, last.index, Classify(t.clients[last.index], line, last.clock), last.clock, k);
    }
  }

  /** So between turns the lines taken from a connection are the complete lines of all it sent, and its
      buffer is their tail. */
  lemma TurnsServeWholeLines(listener: int, rounds: seq<Round>, k: nat)
    requires k < |RunSteps(START, StepsOf(listener, rounds)).clients|
    ensures var steps := StepsOf(listener, rounds);
            Split(HeardBy(steps, k)) == Framed(TakenFrom(steps, k), RunSteps(START, steps).clients[k].buffer)
  {
    hide RunSteps, StepsOf, HeardBy, TakenFrom, Split, All;
    var steps := StepsOf(listener, rounds);
    var b := RunSteps(START, steps).clients[k].buffer;
    TurnsLeaveNothingWaiting(listener, rounds);
    NoByteIsLost(steps, k);
    SplitStream(TakenFrom(steps, k));
    SplitAppend(Stream(TakenFrom(steps, k)), b);
    assert "" + b == b;
    SplitTail(b);
    assert TakenFrom(steps, k) + [] == TakenFrom(steps, k);
  }
}
