/** From the agent's payload to the server's map: what a line on an agent's connection does. */
module Ingest {
  import opened Text
  import opened Json
  import opened Fields
  import opened Records
  import opened Command
  import opened Wire
  import opened Framing
  import opened Alerting
  import opened Server
  import opened Spaced
  import opened Rounds

  /** Metrics enter the history only through a line of type `metrics` on a connection in the agent
      role, and every such line enters it as what the extractors read. */
  lemma MetricsOnlyFromAgents(s: State, step: Step)
    ensures (exists e :: e in StepInput(s, step) && e.Observe?) <==>
            && step.TakeLine? && step.index < |s.clients| && HasLine(s.clients[step.index].buffer)
            && var c := s.clients[step.index];
               var line := FirstOf(c.buffer).0;
               c.role == Agent && line != "" && JsonGetString(line, "type") == Some("metrics")
               && StepInput(s, step) == [Observe(DecodeMetric(line, c.declaredHost, Reading(step.clock, 0)), Later(step.clock))]
  {
    hide JsonGetString, DecodeMetric, FirstOf, HasLine, ClassifyCommand, Lower;
    if step.TakeLine? && step.index < |s.clients| && HasLine(s.clients[step.index].buffer) {
      var line := FirstOf(s.clients[step.index].buffer).0;
      CommandsObserveNothing(JsonGetString(line, "text").Or(""));
      if StepInput(s, step) != [] {
        assert StepInput(s, step)[0] in StepInput(s, step);
      }
    }
  }

  lemma CommandsObserveNothing(text: string)
    ensures !ClassifyCommand(text).Report?
  {
    hide ParseAlertCommand, Lower, Trim;
  }

  lemma PayloadShaped(m: Metric)
    ensures Shaped(JObj(PayloadFields(m)))
  {
    hide MetricFields, ShapedFields, CleanFields;
    MetricShape(m);
    TypeShape("metrics");
    Fields1(Str("type", "metrics"));
    FieldsConcat([Str("type", "metrics")], MetricFields(m));
  }

  lemma PayloadIsOneLine(m: Metric)
    ensures All(MetricsPayload(m), NotNewline) && Solid(MetricsPayload(m)) && Trim(MetricsPayload(m)) == MetricsPayload(m)
  {
    hide PayloadFields, Shaped, MetricsPayload, All, RenderFields, Trim;
    PayloadShaped(m);
    PayloadIsObject(m);
    var text := MetricsPayload(m);
    assert text == Render(JObj(PayloadFields(m)));
    RenderSingleLine(JObj(PayloadFields(m)));
    assert text[0] == '{' && text[|text| - 1] == '}';
    TrimSolid(text);
  }

  lemma FirstOfLine(line: string, rest: string)
    requires All(line, NotNewline)
    ensures HasLine(line + ("\n" + rest)) && FirstOf(line + ("\n" + rest)) == (Trim(line), rest)
  {
    hide Trim, All, Span;
    SpanStops(line, "\n" + rest, NotNewline);
    var buffer := line + ("\n" + rest);
    assert buffer[..|line|] == line && buffer[|line| + 1..] == rest;
  }

  /** Agent to server, through the socket buffer: a payload that heads the buffer of an agent's
      connection is stored under the metric's own host with every number at two decimals, the rules are
      evaluated on it, and the rest of the buffer waits. */
  lemma AgentReachesServer(s: State, i: nat, m: Metric, rest: string, clock: seq<string>)
    requires i < |s.clients| && s.clients[i].role == Agent
    requires s.clients[i].buffer == MetricsPayload(m) + ("\n" + rest) && VerbatimMetric(m)
    ensures var t := Do(s, TakeLine(i, clock));
            && t.core.latest == s.core.latest[m.host := OnTheWire(m)]
            && StepInput(s, TakeLine(i, clock)) == [Observe(OnTheWire(m), Later(clock))]
            && t.clients[i].buffer == rest
  {
    hide MetricsPayload, JsonGetString, DecodeMetric, VerbatimMetric, HasLine, FirstOf, Trim, OnTheWire, All, Solid, Do, Evaluate;
    PayloadIsOneLine(m);
    FirstOfLine(MetricsPayload(m), rest);
    AgentRoundTrip(m, s.clients[i].declaredHost, Reading(clock, 0));
    NotEmpty(m);
    StepCore(s, TakeLine(i, clock));
    WireHost(m);
    ApplyOne(s.core, Observe(OnTheWire(m), Later(clock)));
    TakesRest(s, i, clock);
  }

  lemma NotEmpty(m: Metric)
    ensures MetricsPayload(m) != ""
  {}

  lemma WireHost(m: Metric)
    ensures OnTheWire(m).host == m.host
  {}

  lemma ApplyOne(c: Core, e: Input)
    ensures Run(c, [e]) == Apply(c, e)
  {
    hide Apply;
    assert [e][..0] == [];
  }

  lemma TakesRest(s: State, i: nat, clock: seq<string>)
    requires i < |s.clients| && HasLine(s.clients[i].buffer)
    ensures |Do(s, TakeLine(i, clock)).clients| == |s.clients|
    ensures Do(s, TakeLine(i, clock)).clients[i].buffer == FirstOf(s.clients[i].buffer).1
  {
    hide Take, HasLine, FirstOf;
  }

  // ---- registration ---------------------------------------------------------------------------------

  /** The members of a line a connection introduces itself with, in any layout. */
  ghost predicate Introduces(ms: seq<Member>, role: string, host: string) {
    && |ms| == 3 && (forall i :: 0 <= i < 3 ==> GoodMember(ms[i]))
    && ms[0].name == "type" && ms[0].text == "register"
    && ms[1].name == "role" && ms[1].text == role
    && ms[2].name == "host" && ms[2].text == host
  }

  lemma Keywords()
    ensures IsKey("type") && IsKey("role") && IsKey("host") && IsKey("text")
    ensures "type" != "role" && "type" != "host" && "role" != "host" && "type" != "text"
  {
    assert "type"[0] == 't' && "role"[0] == 'r' && "host"[0] == 'h' && "type"[1] == 'y' && "text"[1] == 'e';
  }

  lemma FixedTexts()
    ensures All("register", Verbatim) && All("command", Verbatim) && All("agent", Verbatim)
    ensures All("dashboard", Verbatim) && All("flask-dashboard", Verbatim)
  {}

  lemma LowerRoles()
    ensures Lower("agent") == "agent" && Lower("dashboard") == "dashboard"
  {}

  /** A verbatim text is printed as it is, and has no quote. */
  lemma PrintedAsIs(s: string)
    requires All(s, Verbatim)
    ensures Escape(s) == s && All(s, NotQuote)
  {
    hide Escape;
    EscapeIdentity(s);
    VerbatimQuoteFree(s);
  }

  lemma RegisterRead(ms: seq<Member>, role: string, host: string)
    requires Introduces(ms, role, host) && All(role, Verbatim) && All(host, Verbatim)
    ensures var line := LineText(ms);
            && JsonGetString(line, "type") == Some("register")
            && JsonGetString(line, "role") == Some(role) && JsonGetString(line, "host") == Some(host)
  {
    hide LineText, JsonGetString, Escape, All, GoodMember, IsKey;
    Keywords();
    FixedTexts();
    PrintedAsIs("register");
    PrintedAsIs(role);
    PrintedAsIs(host);
    ReadThree(ms);
  }

  lemma RegisterClassified(c: Client, ms: seq<Member>, role: string, host: string, clock: seq<string>)
    requires Introduces(ms, role, host) && All(role, Verbatim) && All(host, Verbatim)
    ensures Classify(c, LineText(ms), clock) == Hello(Lower(role), host)
  {
    hide LineText, JsonGetString, All, Lower, ClassifyCommand, Introduces, DecodeMetric;
    RegisterRead(ms, role, host);
  }

  /** The agent's line is such a line, without blanks. */
  lemma AgentIntroduces(host: string)
    requires All(host, NotQuote)
    ensures var ms := [Compact("type", "register"), Compact("role", "agent"), Compact("host", host)];
            && Introduces(ms, "agent", host)
            && LineText(ms) == ObjectText([Str("type", "register"), Str("role", "agent"), Str("host", host)])
  {
    hide LineText, ObjectText, Escape, All, GoodMember, IsKey;
    Keywords();
    FixedTexts();
    PrintedAsIs("register");
    PrintedAsIs("agent");
    GoodCompact("type", "register", true);
    GoodCompact("role", "agent", true);
    GoodCompact("host", host, true);
    CompactThree("type", "register", "role", "agent", "host", host);
  }

  /** The dashboard's line, as `json.dumps` prints it, is such a line too. */
  lemma DashboardIntroduces()
    ensures var ms := [Dumped("type", "register", true), Dumped("role", "dashboard", false), Dumped("host", "flask-dashboard", false)];
            && Introduces(ms, "dashboard", "flask-dashboard")
            && LineText(ms) == DumpsThree("type", "register", "role", "dashboard", "host", "flask-dashboard")
    ensures All("dashboard", Verbatim) && All("flask-dashboard", Verbatim) && Lower("dashboard") == "dashboard"
  {
    hide LineText, DumpsThree, Escape, All, GoodMember, IsKey, Lower;
    Keywords();
    FixedTexts();
    LowerRoles();
    PrintedAsIs("register");
    PrintedAsIs("dashboard");
    PrintedAsIs("flask-dashboard");
    GoodCompact("type", "register", true);
    GoodCompact("role", "dashboard", false);
    GoodCompact("host", "flask-dashboard", false);
    DumpedThree("type", "register", "role", "dashboard", "host", "flask-dashboard");
  }

  /** Registration through the socket buffer, in any layout: the connection takes the declared host and, for
      `agent` and `dashboard` in any case, the role; it is acknowledged, a dashboard is also shown the
      metrics and the rules; and neither the core nor any other connection changes. */
  lemma RegistrationTakesEffect(s: State, i: nat, ms: seq<Member>, role: string, host: string, rest: string, clock: seq<string>)
    requires i < |s.clients| && s.clients[i].buffer == LineText(ms) + ("\n" + rest)
    requires Introduces(ms, role, host) && All(role, Verbatim) && All(host, Verbatim)
    ensures var c, t := s.clients[i], Do(s, TakeLine(i, clock));
            && t.core == s.core && |t.clients| == |s.clients|
            && (forall k :: 0 <= k < |s.clients| && k != i ==> t.clients[k] == s.clients[k])
            && t.clients[i].declaredHost == host && t.clients[i].buffer == rest
            && (Lower(role) == "agent" ==> t.clients[i].role == Agent)
            && (Lower(role) == "dashboard" ==> t.clients[i].role == Server.Dashboard)
            && (Lower(role) != "agent" && Lower(role) != "dashboard" ==> t.clients[i].role == c.role)
            && t.clients[i].out == c.out + [AckText("registered as " + Lower(role))] +
                 (if t.clients[i].role == Server.Dashboard
                  then [SnapshotText(Reading(clock, 0), s.core.latest), RulesText(s.core.rules)] else [])
  {
    hide LineText, JsonGetString, HasLine, FirstOf, Trim, All, Lower, AckText, SnapshotText, RulesText, Classify, GoodMember;
    LineIsOneLine(ms);
    FirstOfLine(LineText(ms), rest);
    var t := SetBuffer(s, i, rest);
    var q := Hello(Lower(role), host);
    RegisterClassified(t.clients[i], ms, role, host, clock);
    assert Do(s, TakeLine(i, clock)) == Serve(t, i, q, clock);
    HelloServed(t, i, q, clock);
  }

  lemma HelloServed(s: State, i: nat, q: Request, clock: seq<string>)
    requires i < |s.clients| && q.Hello?
    ensures var c, d := s.clients[i], Serve(s, i, q, clock).clients[i];
            && Serve(s, i, q, clock).core == s.core
            && (forall k :: 0 <= k < |s.clients| && k != i ==> Serve(s, i, q, clock).clients[k] == s.clients[k])
            && d == c.(declaredHost := q.host, role := NewRole(c.role, q.role), out := d.out)
            && d.out == c.out + Greeting(d.role, q.role, s.core, clock)
  {
    hide AckText, SnapshotText, RulesText, Greeting;
    assert forall k :: 0 <= k < |s.clients| ==> s.clients[k].out + [] == s.clients[k].out;
  }

  /** A connection joins a run: it is accepted, its registration arrives, and the line is taken. */
  function Joining(n: nat, fd: int, peer: string, line: string, clock: seq<string>): seq<Step> {
    [Accept(fd, peer), Receive(n, line + ("\n" + "")), TakeLine(n, clock)]
  }

  lemma RunThree(s: State, a: Step, b: Step, c: Step)
    ensures RunSteps(s, [a, b, c]) == Do(Do(Do(s, a), b), c)
  {
    hide Do;
    assert [a, b, c][..2] == [a, b] && [a, b][..1] == [a] && [a][..0] == [];
    assert RunSteps(s, [a]) == Do(s, a);
    assert RunSteps(s, [a, b]) == Do(Do(s, a), b);
  }

  /** After every run a further dashboard or agent can join: it becomes the last connection, in its role,
      with the core and the older connections as they were. */
  lemma CanJoin(steps: seq<Step>, fd: int, peer: string, ms: seq<Member>, role: string, host: string, clock: seq<string>)
    requires Introduces(ms, role, host) && All(role, Verbatim) && All(host, Verbatim)
    ensures var s := RunSteps(START, steps);
            var n := |s.clients|;
            var t := RunSteps(START, steps + Joining(n, fd, peer, LineText(ms), clock));
            && t.core == s.core && |t.clients| == n + 1 && t.clients[..n] == s.clients
            && t.clients[n].fd == fd && t.clients[n].declaredHost == host && t.clients[n].buffer == ""
            && (Lower(role) == "agent" ==> t.clients[n].role == Agent)
            && (Lower(role) == "dashboard" ==> t.clients[n].role == Server.Dashboard)
  {
    hide RunSteps, LineText, All, Lower, Do, Introduces, AckText, SnapshotText, RulesText;
    var s := RunSteps(START, steps);
    var n := |s.clients|;
    var line := LineText(ms) + ("\n" + "");
    var a, b, c := Accept(fd, peer), Receive(n, line), TakeLine(n, clock);
    RunStepsAppend(START, steps, Joining(n, fd, peer, LineText(ms), clock));
    RunThree(s, a, b, c);
    ArrivedAndHeard(s, fd, peer, line);
    var two := Do(Do(s, a), b);
    RegistrationTakesEffect(two, n, ms, role, host, "", clock);
    DescriptorKept(two, n, clock);
  }

  lemma ArrivedAndHeard(s: State, fd: int, peer: string, line: string)
    ensures var n := |s.clients|;
            var t := Do(Do(s, Accept(fd, peer)), Receive(n, line));
            && t.core == s.core && |t.clients| == n + 1 && t.clients[..n] == s.clients
            && t.clients[n] == Fresh(fd, peer).(buffer := line)
  {
    hide Take;
    var n := |s.clients|;
    assert "" + line == line;
    var one := Do(s, Accept(fd, peer));
    assert one.clients[n] == Fresh(fd, peer);
    assert Do(one, Receive(n, line)).clients[..n] == one.clients[..n];
  }

  lemma DescriptorKept(s: State, i: nat, clock: seq<string>)
    requires i < |s.clients|
    ensures |Do(s, TakeLine(i, clock)).clients| == |s.clients|
    ensures Do(s, TakeLine(i, clock)).clients[i].fd == s.clients[i].fd
  {
    hide FirstOf, HasLine, Classify, Serve;
    var (line, rest) := FirstOf(s.clients[i].buffer);
    var t := SetBuffer(s, i, rest);
    if line != "" {
      ServeKeeps(t, i, Classify(t.clients[i], line, clock), clock, i);
    }
  }

  // ---- commands ------------------------------------------------------------------------------------------

  /** The members of a command line, in any layout. */
  ghost predicate Commands(ms: seq<Member>, text: string) {
    && |ms| == 2 && GoodMember(ms[0]) && GoodMember(ms[1])
    && ms[0].name == "type" && ms[0].text == "command" && ms[1].name == "text" && ms[1].text == text
  }

  lemma CommandRead(ms: seq<Member>, text: string)
    requires Commands(ms, text) && All(text, Verbatim)
    ensures JsonGetString(LineText(ms), "type") == Some("command") && JsonGetString(LineText(ms), "text") == Some(text)
  {
    hide LineText, JsonGetString, Escape, All, GoodMember, IsKey;
    Keywords();
    FixedTexts();
    PrintedAsIs("command");
    PrintedAsIs(text);
    ReadTwo(ms);
  }

  /** An accepted alert command, sent by any connection in any layout, reaches the rules: the rule the
      grammar gives it is stored last, and is the one input added to the history. */
  lemma CommandReachesRules(s: State, i: nat, ms: seq<Member>, text: string, rest: string, clock: seq<string>)
    requires i < |s.clients| && s.clients[i].buffer == LineText(ms) + ("\n" + rest)
    requires Commands(ms, text) && All(text, Verbatim) && ParseAlertCommand(text).Some?
    ensures StepInput(s, TakeLine(i, clock)) == [Register(ParseAlertCommand(text).value)]
    ensures Do(s, TakeLine(i, clock)).core == s.core.(rules := s.core.rules + [ParseAlertCommand(text).value])
  {
    hide LineText, JsonGetString, HasLine, FirstOf, Trim, All, Lower, ParseAlertCommand, GoodMember, Do, DecodeMetric;
    LineIsOneLine(ms);
    FirstOfLine(LineText(ms), rest);
    CommandRead(ms, text);
    AcceptedDispatches(text);
    StepCore(s, TakeLine(i, clock));
    ApplyOne(s.core, Register(ParseAlertCommand(text).value));
  }

  // ---- an agent's whole stream -----------------------------------------------------------------------------

  function Payloads(metrics: seq<Metric>): (r: seq<string>)
    ensures |r| == |metrics|
  {
    seq(|metrics|, k requires 0 <= k < |metrics| => MetricsPayload(metrics[k]))
  }

  /** The inputs the metrics of a stream become; the k-th reading list is that of the k-th payload. */
  function Observations(metrics: seq<Metric>, clocks: seq<seq<string>>): (r: seq<Input>)
    ensures |r| == |metrics|
  {
    seq(|metrics|, k requires 0 <= k < |metrics| => Observe(OnTheWire(metrics[k]), Later(ClockAt(clocks, k))))
  }

  lemma ServePayload(s: State, i: nat, m: Metric, clock: seq<string>)
    requires i < |s.clients| && s.clients[i].role == Agent && VerbatimMetric(m)
    ensures var t := ServeLine(s, i, MetricsPayload(m), clock);
            && t.core == Apply(s.core, Observe(OnTheWire(m), Later(clock)))
            && t.clients[i].role == Agent && t.clients[i].declaredHost == s.clients[i].declaredHost
  {
    hide MetricsPayload, JsonGetString, DecodeMetric, VerbatimMetric, Trim, OnTheWire, All, Solid, Published, Apply;
    PayloadIsOneLine(m);
    NotEmpty(m);
    AgentRoundTrip(m, s.clients[i].declaredHost, Reading(clock, 0));
  }

  lemma {:induction false} ServePayloads(s: State, i: nat, metrics: seq<Metric>, clocks: seq<seq<string>>)
    requires i < |s.clients| && s.clients[i].role == Agent && forall k :: 0 <= k < |metrics| ==> VerbatimMetric(metrics[k])
    ensures var t := ServeLines(s, i, Payloads(metrics), clocks);
            && t.core == Run(s.core, Observations(metrics, clocks))
            && t.clients[i].role == Agent && t.clients[i].declaredHost == s.clients[i].declaredHost
  {
    hide MetricsPayload, VerbatimMetric, OnTheWire, Apply, ServeLine;
    if metrics != [] {
      var n := |metrics| - 1;
      ServePayloads(s, i, metrics[..n], clocks);
      assert Payloads(metrics)[..n] == Payloads(metrics[..n]);
      assert Observations(metrics, clocks)[..n] == Observations(metrics[..n], clocks);
      ServePayload(ServeLines(s, i, Payloads(metrics[..n]), clocks), i, metrics[n], ClockAt(clocks, n));
    }
  }

  lemma ServeIntroduction(s: State, i: nat, ms: seq<Member>, host: string, clock: seq<string>)
    requires i < |s.clients| && Introduces(ms, "agent", host) && All(host, Verbatim)
    ensures var t := ServeLine(s, i, LineText(ms), clock);
            && t.core == s.core && t.clients[i].role == Agent && t.clients[i].declaredHost == host
  {
    hide LineText, Trim, All, Classify, Serve, Lower;
    FixedTexts();
    LowerRoles();
    LineIsOneLine(ms);
    RegisterClassified(s.clients[i], ms, "agent", host, clock);
    HelloServed(s, i, Hello("agent", host), clock);
  }

  /** End to end from agent to server. An agent introduces itself and sends any metrics; its lines go out in
      any pattern of successful partial sends and come in as any chunks. Then the server has taken exactly
      these metrics, in order, once each, at two decimals, and nothing is left in the buffer. */
  lemma AgentStreamIsServed(s: State, i: nat, ms: seq<Member>, host: string, metrics: seq<Metric>,
                            patterns: seq<seq<int>>, chunks: seq<string>, clocks: seq<seq<string>>)
    requires i < |s.clients| && s.clients[i].buffer == "" && Introduces(ms, "agent", host) && All(host, Verbatim)
    requires forall k :: 0 <= k < |metrics| ==> VerbatimMetric(metrics[k])
    requires Carries([LineText(ms)] + Payloads(metrics), patterns, chunks)
    ensures var t := RunSteps(s, ReadAll(i, "", chunks, clocks));
            && t.core == Run(s.core, Observations(metrics, ClocksFrom(clocks, 1))) && |t.clients| == |s.clients|
            && t.clients[i].role == Agent && t.clients[i].declaredHost == host && t.clients[i].buffer == ""
  {
    hide RunSteps, LineText, MetricsPayload, VerbatimMetric, OnTheWire, Run, Split, Feed, ServeLines, Introduces, ReadAll, Carries,
         Concat;
    var messages := [LineText(ms)] + Payloads(metrics);
    MessagesAreLines(ms, host, metrics);
    EndToEndFraming(messages, patterns, chunks);
    ReadsServeLines(s, i, chunks, clocks);
    assert "" + Concat(chunks) == Concat(chunks);
    ServeLinesAppend(s, i, [LineText(ms)], Payloads(metrics), clocks);
    ServeOneLine(s, i, LineText(ms), clocks);
    ServeIntroduction(s, i, ms, host, ClockAt(clocks, 0));
    ServePayloads(ServeLines(s, i, [LineText(ms)], clocks), i, metrics, ClocksFrom(clocks, 1));
  }

  lemma ServeOneLine(s: State, i: nat, line: string, clocks: seq<seq<string>>)
    requires i < |s.clients|
    ensures ServeLines(s, i, [line], clocks) == ServeLine(s, i, line, ClockAt(clocks, 0))
  {
    hide ServeLine;
    assert [line][..0] == [];
    ServeNoLines(s, i, clocks);
  }

  lemma MessagesAreLines(ms: seq<Member>, host: string, metrics: seq<Metric>)
    requires Introduces(ms, "agent", host)
    ensures OneLineEach([LineText(ms)] + Payloads(metrics))
  {
    hide LineText, MetricsPayload, All, Trim, Solid;
    LineIsOneLine(ms);
    forall k | 0 <= k < |metrics|
      ensures All(MetricsPayload(metrics[k]), NotNewline)
    {
      PayloadIsOneLine(metrics[k]);
    }
  }
}
