/** The server as a state machine: connections, the alerting core, and what each line does. */
module Server {
  import opened Text
  import opened Decimal
  import opened Json
  import opened Fields
  import opened Records
  import opened Command
  import opened Wire
  import opened Alerting
  import opened HostOrder

  datatype Role = Unknown | Agent | Dashboard

  /** One connection. `out` is every payload handed to `send_line` on it so far. */
  datatype Client = Client(
    fd: int,
    role: Role,
    peerLabel: string,
    declaredHost: string,
    buffer: string,
    out: seq<string>)

  datatype State = State(clients: seq<Client>, core: Core)

  const START := State([], EMPTY)

  // ---- payload texts --------------------------------------------------------------------

  function MetricText(m: Metric): string { Render(MetricEventJson(m)) }

  function AlertText(a: AlertEvent): string { Render(AlertEventJson(a)) }

  function AlertTexts(alerts: seq<AlertEvent>): seq<string> {
    seq(|alerts|, i requires 0 <= i < |alerts| => AlertText(alerts[i]))
  }

  function RulesText(rules: seq<AlertRule>): string { Render(RulesEventJson(rules)) }

  function ChatText(c: ChatMessage): string { Render(ChatEventJson(c)) }

  function AckText(message: string): string { Render(AckEventJson(message)) }

  function ErrorText(message: string): string { Render(ErrorEventJson(message)) }

  /** The metrics of a snapshot, in host order. */
  ghost function Listing(latest: map<string, Metric>): (ms: seq<Metric>)
    ensures |ms| == |Ordered(latest.Keys)|
    ensures forall i :: 0 <= i < |ms| ==> Ordered(latest.Keys)[i] in latest && ms[i] == latest[Ordered(latest.Keys)[i]]
  {
    var hs := Ordered(latest.Keys);
    assert forall i :: 0 <= i < |hs| ==> hs[i] in hs;
    seq(|hs|, i requires 0 <= i < |hs| => latest[hs[i]])
  }

  ghost function SnapshotText(stamp: string, latest: map<string, Metric>): string {
    Render(SnapshotEventJson(stamp, Listing(latest)))
  }

  // ---- what a line asks for ---------------------------------------------------------------

  datatype Request =
    | Hello(role: string, host: string)
    | Report(metric: Metric)
    | AddRule(rule: AlertRule)
    | BadAlert
    | ListRules
    | CountHosts
    | UnknownCommand
    | Talk(message: ChatMessage)
    | Unsupported

  function ClassifyCommand(text: string): Request {
    var lowered := Lower(Trim(text));
    if "/alert" <= lowered then
      match ParseAlertCommand(text)
      case None => BadAlert
      case Some(rule) => AddRule(rule)
    else if lowered == "/listalerts" then ListRules
    else if lowered == "/clients" then CountHosts
    else UnknownCommand
  }

  /** The dispatch of `handle_line` and `handle_command`, on the raw text of the line. */
  function Classify(c: Client, line: string, clock: seq<string>): Request {
    var kind := JsonGetString(line, "type").Or("");
    if kind == "register" then
      Hello(Lower(JsonGetString(line, "role").Or("")), JsonGetString(line, "host").Or(c.peerLabel))
    else if kind == "metrics" && c.role == Agent then
      Report(DecodeMetric(line, c.declaredHost, Reading(clock, 0)))
    else if kind == "command" then
      ClassifyCommand(JsonGetString(line, "text").Or(""))
    else if kind == "chat" then
      Talk(ChatMessage(JsonGetString(line, "from").Or(if c.declaredHost == "" then c.peerLabel else c.declaredHost),
                       JsonGetString(line, "text").Or(""),
                       Reading(clock, 0)))
    else Unsupported
  }

  // ---- what the server does about it ------------------------------------------------------

  function Later(clock: seq<string>): seq<string> {
    if clock == [] then [] else clock[1..]
  }

  function NewRole(current: Role, role: string): Role {
    if role == "agent" then Agent else if role == "dashboard" then Dashboard else current
  }

  /** Every dashboard receives the payloads, in order. */
  function Publish(clients: seq<Client>, payloads: seq<string>): (r: seq<Client>)
    ensures |r| == |clients|
  {
    seq(|clients|, i requires 0 <= i < |clients| =>
      if clients[i].role == Dashboard then clients[i].(out := clients[i].out + payloads) else clients[i])
  }

  function SendTo(clients: seq<Client>, i: nat, payloads: seq<string>): (r: seq<Client>)
    requires i < |clients|
    ensures |r| == |clients|
  {
    clients[i := clients[i].(out := clients[i].out + payloads)]
  }

  ghost function Greeting(role: Role, declared: string, core: Core, clock: seq<string>): seq<string> {
    [AckText("registered as " + declared)] +
    if role == Dashboard then [SnapshotText(Reading(clock, 0), core.latest), RulesText(core.rules)] else []
  }

  function RuleNotice(rule: AlertRule, stamp: string): ChatMessage {
    ChatMessage("system", "Registered alert rule: " + rule.rawCommand, stamp)
  }

  /** The core input of a request, if it has one. */
  function InputOf(q: Request, clock: seq<string>): Option<Input> {
    match q
    case Report(m) => Some(Observe(m, Later(clock)))
    case AddRule(r) => Some(Register(r))
    case _ => None
  }

  function Advance(core: Core, input: Option<Input>): Core {
    match input
    case None => core
    case Some(e) => Apply(core, e)
  }

  /** What goes to every dashboard. */
  function Published(core: Core, q: Request, clock: seq<string>): seq<string> {
    match q
    case Report(m) => [MetricText(m)] + AlertTexts(Emits(core, Observe(m, Later(clock))))
    case AddRule(r) => [ChatText(RuleNotice(r, Reading(clock, 0))), RulesText(core.rules + [r])]
    case Talk(c) => [ChatText(c)]
    case _ => []
  }

  /** What goes to the sender alone, afterwards. */
  ghost function Replies(core: Core, c: Client, q: Request, clock: seq<string>): seq<string> {
    match q
    case Hello(role, _) => Greeting(NewRole(c.role, role), role, core, clock)
    case AddRule(r) => [AckText("rule added: " + r.rawCommand)]
    case BadAlert => [ErrorText("expected /alert CPU>80% or /alert MEMORY>70%")]
    case ListRules => [RulesText(core.rules)]
    case CountHosts => [AckText("connected agents: " + NatText(|core.latest|))]
    case UnknownCommand => [ErrorText("unknown command")]
    case Unsupported => [ErrorText("unsupported message")]
    case _ => []
  }

  function Introduce(c: Client, q: Request): Client {
    match q
    case Hello(role, host) => c.(declaredHost := host, role := NewRole(c.role, role))
    case _ => c
  }

  ghost function Serve(s: State, i: nat, q: Request, clock: seq<string>): (r: State)
    requires i < |s.clients|
    ensures |r.clients| == |s.clients|
  {
    var named := s.clients[i := Introduce(s.clients[i], q)];
    var told := Publish(named, Published(s.core, q, clock));
    State(SendTo(told, i, Replies(s.core, s.clients[i], q, clock)), Advance(s.core, InputOf(q, clock)))
  }

  ghost function HandleLine(s: State, i: nat, line: string, clock: seq<string>): (r: State)
    requires i < |s.clients|
    ensures |r.clients| == |s.clients|
  {
    Serve(s, i, Classify(s.clients[i], line, clock), clock)
  }

  /** Serving a line changes no descriptor and no buffer, and no client but the sender changes
      anything except what was sent to it. */
  lemma ServeKeeps(s: State, i: nat, q: Request, clock: seq<string>, k: nat)
    requires i < |s.clients| && k < |s.clients|
    ensures var c, d := s.clients[k], Serve(s, i, q, clock).clients[k];
            && d.fd == c.fd && d.buffer == c.buffer && d.peerLabel == c.peerLabel
            && (k != i ==> d.role == c.role && d.declaredHost == c.declaredHost)
  {
    hide Published, Replies, Advance, InputOf, NewRole;
  }

  // ---- steps and runs ------------------------------------------------------------------------

  datatype Step =
    | Accept(fd: int, peer: string)
    | Receive(index: nat, chunk: string)
    | TakeLine(index: nat, clock: seq<string>)
    | Disconnect(index: nat)

  predicate HasLine(buffer: string) {
    Span(buffer, NotNewline) < |buffer|
  }

  /** The buffer after its first line is taken off, and that line trimmed. */
  function FirstOf(buffer: string): (string, string) {
    var n := Span(buffer, NotNewline);
    if n < |buffer| then (Trim(buffer[..n]), buffer[n + 1..]) else ("", buffer)
  }

  function SetBuffer(s: State, i: nat, buffer: string): (r: State)
    requires i < |s.clients|
    ensures |r.clients| == |s.clients| && r.clients[i].buffer == buffer
  {
    s.(clients := s.clients[i := s.clients[i].(buffer := buffer)])
  }

  ghost function Take(s: State, i: nat, clock: seq<string>): (r: State)
    requires i < |s.clients|
    ensures |r.clients| == |s.clients|
    ensures r.clients[i].buffer == FirstOf(s.clients[i].buffer).1
  {
    var (line, rest) := FirstOf(s.clients[i].buffer);
    var t := SetBuffer(s, i, rest);
    if line == "" then t else
      var q := Classify(t.clients[i], line, clock);
      ServeKeeps(t, i, q, clock, i);
      Serve(t, i, q, clock)
  }

  function Fresh(fd: int, peer: string): Client {
    Client(fd, Unknown, peer, "", "", [])
  }

  ghost function Do(s: State, step: Step): State {
    match step
    case Accept(fd, peer) => s.(clients := s.clients + [Fresh(fd, peer)])
    case Receive(i, chunk) => if i < |s.clients| then SetBuffer(s, i, s.clients[i].buffer + chunk) else s
    case TakeLine(i, clock) => if i < |s.clients| && HasLine(s.clients[i].buffer) then Take(s, i, clock) else s
    case Disconnect(i) => if i < |s.clients| then s.(clients := s.clients[..i] + s.clients[i + 1..]) else s
  }

  ghost function RunSteps(s: State, steps: seq<Step>): State {
    if steps == [] then s else Do(RunSteps(s, steps[..|steps| - 1]), steps[|steps| - 1])
  }

  lemma {:induction false} RunStepsAppend(s: State, a: seq<Step>, b: seq<Step>)
    ensures RunSteps(s, a + b) == RunSteps(RunSteps(s, a), b)
  {
    hide Do;
    if b == [] {
      assert a + b == a;
    } else {
      assert (a + b)[..|a + b| - 1] == a + b[..|b| - 1];
      RunStepsAppend(s, a, b[..|b| - 1]);
    }
  }

  // ---- the core of a run is the history of its inputs ------------------------------------------

  /** The request a step serves, if any. */
  ghost function RequestOf(s: State, step: Step): Option<Request> {
    match step
    case TakeLine(i, clock) =>
      if i < |s.clients| && HasLine(s.clients[i].buffer) && FirstOf(s.clients[i].buffer).0 != ""
      then Some(Classify(s.clients[i], FirstOf(s.clients[i].buffer).0, clock)) else None
    case _ => None
  }

  ghost function StepInput(s: State, step: Step): seq<Input> {
    match RequestOf(s, step)
    case None => []
    case Some(q) => match InputOf(q, step.clock) case None => [] case Some(e) => [e]
  }

  /** The metrics accepted and rules registered along a run, in order. */
  ghost function Inputs(s: State, steps: seq<Step>): seq<Input> {
    if steps == [] then [] else
      Inputs(s, steps[..|steps| - 1]) + StepInput(RunSteps(s, steps[..|steps| - 1]), steps[|steps| - 1])
  }

  lemma ClassifyIgnoresBuffer(c: Client, buffer: string, line: string, clock: seq<string>)
    ensures Classify(c.(buffer := buffer), line, clock) == Classify(c, line, clock)
  {
    hide JsonGetString, DecodeMetric, ClassifyCommand, Lower;
  }

  lemma StepCore(s: State, step: Step)
    ensures Do(s, step).core == Run(s.core, StepInput(s, step))
  {
    hide Classify, Publish, Published, Replies, Apply, FirstOf;
    match step
    case TakeLine(i, clock) =>
      if i < |s.clients| && HasLine(s.clients[i].buffer) {
        ClassifyIgnoresBuffer(s.clients[i], FirstOf(s.clients[i].buffer).1, FirstOf(s.clients[i].buffer).0, clock);
      }
    case _ =>
  }

  lemma RunSnoc(c: Core, a: seq<Input>, b: seq<Input>)
    requires |b| <= 1
    ensures Run(c, a + b) == Run(Run(c, a), b)
  {
    hide Apply;
    if b == [] {
      assert a + b == a;
    } else {
      assert (a + b)[..|a + b| - 1] == a;
    }
  }

  /** Accepting, receiving, disconnecting and every other kind of line leave the alerting core
      alone: after any run it is the core of the input history. */
  lemma {:induction false} CoreOfRun(steps: seq<Step>)
    ensures RunSteps(START, steps).core == History(Inputs(START, steps))
  {
    hide Do, Apply, StepInput;
    if steps != [] {
      var before, last := steps[..|steps| - 1], steps[|steps| - 1];
      CoreOfRun(before);
      var s := RunSteps(START, before);
      StepCore(s, last);
      StepInputShort(s, last);
      RunSnoc(EMPTY, Inputs(START, before), StepInput(s, last));
    }
  }

  lemma StepInputShort(s: State, step: Step)
    ensures |StepInput(s, step)| <= 1
    ensures forall e :: e in StepInput(s, step) && e.Register? ==> Parsed(e.rule)
  {
    hide Classify, Parsed, FirstOf;
    var q := RequestOf(s, step);
    if q.Some? {
      ClassifyParses(s.clients[step.index], FirstOf(s.clients[step.index].buffer).0, step.clock);
    }
  }

  lemma CommandParses(text: string)
    ensures ClassifyCommand(text).AddRule? ==> Parsed(ClassifyCommand(text).rule)
  {
    hide ParseAlertCommand, Parsed, Lower;
    if ParseAlertCommand(text).Some? {
      RegisteredIsParsed(text);
    }
  }

  lemma ClassifyParses(c: Client, line: string, clock: seq<string>)
    ensures Classify(c, line, clock).AddRule? ==> Parsed(Classify(c, line, clock).rule)
  {
    hide JsonGetString, DecodeMetric, ClassifyCommand, Lower, Parsed;
    CommandParses(JsonGetString(line, "text").Or(""));
  }

  /** Every rule ever registered is a parsed command. */
  lemma {:induction false} InputsParsed(steps: seq<Step>)
    ensures ParsedInputs(Inputs(START, steps))
  {
    hide Parsed, StepInput, Do;
    if steps != [] {
      var before, last := steps[..|steps| - 1], steps[|steps| - 1];
      InputsParsed(before);
      var more := StepInput(RunSteps(START, before), last);
      StepInputShort(RunSteps(START, before), last);
      assert forall k :: 0 <= k < |more| ==> more[k] in more;
    }
  }
}
