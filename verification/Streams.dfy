/** What arrives: the alerts on a dashboard's stream and board are those the run emitted while it listened. */
module Streams {
  import opened Text
  import opened Decimal
  import opened Json
  import opened Fields
  import opened Records
  import opened Command
  import opened Wire
  import opened Alerting
  import opened Server
  import opened Hygiene
  import opened Framing
  import opened Rounds
  import opened Dashboard
  import opened Replication
  import opened Mirror
  import opened Consistency
  import opened Theorems
  import Ingest

  // ---- what one step adds to a stream -----------------------------------------------------------------

  /** What a step adds to the output of a connection that was there before it. */
  ghost function Added(s: State, step: Step, c: Client, k: nat): seq<string> {
    match RequestOf(s, step)
    case None => []
    case Some(q) =>
      (if c.role == Server.Dashboard then Published(s.core, q, step.clock) else []) +
      (if k == step.index then Replies(s.core, c, q, step.clock) else [])
  }

  lemma ServedOut(s: State, step: Step, k: nat)
    requires RequestOf(s, step).Some? && k < |s.clients|
    ensures |Do(s, step).clients| == |s.clients|
    ensures Do(s, step).clients[k].out == s.clients[k].out + Added(s, step, s.clients[k], k)
  {
    hide Published, Replies, FirstOf, HasLine, Serve, Classify, NewRole;
    var i, clock := step.index, step.clock;
    var (line, rest) := FirstOf(s.clients[i].buffer);
    var t := SetBuffer(s, i, rest);
    var q := Classify(s.clients[i], line, clock);
    ClassifyIgnoresBuffer(s.clients[i], rest, line, clock);
    RepliesIgnoreBuffer(s.core, s.clients[i], rest, q, clock);
    ServeDelivers(t, i, q, clock, k);
    if q.Hello? {
      NothingPublished(s.core, q, clock);
    }
    var out := s.clients[k].out;
    var news := if s.clients[k].role == Server.Dashboard then Published(s.core, q, clock) else [];
    var answer := if k == i then Replies(s.core, s.clients[k], q, clock) else [];
    assert out + news + answer == out + (news + answer);
  }

  lemma SilentOut(s: State, step: Step, k: nat)
    requires RequestOf(s, step).None? && k < |Do(s, step).clients| && !(step.Accept? && k == |s.clients|)
    ensures Earlier(s, step, k) < |s.clients| && Do(s, step).clients[k].out == s.clients[Earlier(s, step, k)].out
  {
    hide FirstOf, HasLine, Classify;
  }

  lemma StepOut(s: State, step: Step, k: nat)
    requires k < |Do(s, step).clients| && !(step.Accept? && k == |s.clients|)
    ensures Earlier(s, step, k) < |s.clients|
    ensures var c := s.clients[Earlier(s, step, k)];
            Do(s, step).clients[k].out == c.out + Added(s, step, c, k)
  {
    hide Published, Replies, FirstOf, HasLine, Do, Classify;
    if RequestOf(s, step).Some? {
      SameCount(s, step);
      ServedOut(s, step, k);
    } else {
      SilentOut(s, step, k);
      var out := s.clients[Earlier(s, step, k)].out;
      assert out + [] == out;
    }
  }

  lemma SameCount(s: State, step: Step)
    requires RequestOf(s, step).Some?
    ensures step.TakeLine? && |Do(s, step).clients| == |s.clients|
  {
    hide FirstOf, HasLine, Classify;
  }

  /** A metric comes from an agent's connection. */
  lemma ReportedByAgent(s: State, step: Step)
    requires StepInput(s, step) != [] && StepInput(s, step)[0].Observe?
    ensures var e := StepInput(s, step)[0];
            && step.TakeLine? && step.index < |s.clients| && s.clients[step.index].role == Agent
            && RequestOf(s, step) == Some(Report(e.metric)) && e.stamps == Later(step.clock)
  {
    hide FirstOf, HasLine, JsonGetString, DecodeMetric, ClassifyCommand, Lower;
    var q := RequestOf(s, step).value;
    Ingest.CommandsObserveNothing(JsonGetString(FirstOf(s.clients[step.index].buffer).0, "text").Or(""));
  }

  /** Alerts arrive. When a step of a run accepts a metric, every connection in the dashboard role receives
      the metric's event and then the alerts the step emits, in order, and nothing else. */
  lemma AlertsReachDashboards(steps: seq<Step>, n: nat, k: nat)
    requires n < |steps| && MetricAt(steps, n).Some? && k < |RunSteps(START, steps[..n]).clients|
    requires RunSteps(START, steps[..n]).clients[k].role == Server.Dashboard
    ensures var s, t := RunSteps(START, steps[..n]), RunSteps(START, steps[..n + 1]);
            && |t.clients| == |s.clients|
            && t.clients[k].out ==
               s.clients[k].out + ([MetricText(MetricAt(steps, n).value)] + AlertTexts(AlertsAt(steps, n)))
  {
    hide RequestOf, Replies, MetricText, AlertTexts, Emits, Do, StepInput;
    var s := RunSteps(START, steps[..n]);
    assert steps[..n + 1][..n] == steps[..n];
    ReportedByAgent(s, steps[n]);
    SameCount(s, steps[n]);
    ServedOut(s, steps[n], k);
    var news := Published(s.core, Report(MetricAt(steps, n).value), steps[n].clock);
    assert news + [] == news;
  }

  /** Every alert of every step of every run tells of the metric the step accepted and of a registered rule, the
      parse of the command it quotes; the j-th carries the (j + 1)-st clock reading of the step. */
  lemma AlertsTell(steps: seq<Step>, n: nat, j: nat) returns (r: AlertRule)
    requires n < |steps| && j < |AlertsAt(steps, n)|
    ensures MetricAt(steps, n).Some? && r in RunSteps(START, steps[..n]).core.rules
    ensures ParseAlertCommand(AlertsAt(steps, n)[j].rule) == Some(r)
    ensures Tells(AlertsAt(steps, n)[j], r, MetricAt(steps, n).value, Reading(steps[n].clock, j + 1))
  {
    hide RunSteps, StepInput, Evaluate, RuleMatches, AlertFor, ParseAlertCommand, RequestOf, RealRules;
    var s := RunSteps(START, steps[..n]);
    var e := StepInput(s, steps[n])[0];
    ReportedByAgent(s, steps[n]);
    EvaluateAlerts(s.core.rules, e.metric, s.core.active, e.stamps, j);
    var alerts := AlertsAt(steps, n);
    var k :| 0 <= k < |s.core.rules| && RuleMatches(s.core.rules[k], e.metric)
             && alerts[j] == AlertFor(s.core.rules[k], e.metric, Reading(e.stamps, j))
             && Tells(alerts[j], s.core.rules[k], e.metric, Reading(e.stamps, j));
    r := s.core.rules[k];
    RunCoreFacts(steps[..n]);
  }

  // ---- the alert lines of a stream ------------------------------------------------------------------------

  /** The lines of a stream that carry an alert. */
  function AlertLines(lines: seq<string>): seq<string> {
    if lines == [] then [] else
      AlertLines(lines[..|lines| - 1]) + if AlertIn(lines[|lines| - 1]) == [] then [] else [lines[|lines| - 1]]
  }

  function AlertJsons(alerts: seq<AlertEvent>): (r: seq<Json>)
    ensures |r| == |alerts|
  {
    seq(|alerts|, i requires 0 <= i < |alerts| => AlertJson(alerts[i]))
  }

  /** The alerts of a stream are these, in order, once each: as lines and as what a reader takes from them. */
  ghost predicate HasAlerts(lines: seq<string>, alerts: seq<AlertEvent>) {
    AlertLines(lines) == AlertTexts(alerts) && AlertHistory(lines) == AlertJsons(alerts)
  }

  lemma {:induction false} AlertLinesAppend(a: seq<string>, b: seq<string>)
    ensures AlertLines(a + b) == AlertLines(a) + AlertLines(b)
  {
    hide AlertIn;
    if b == [] {
      assert a + b == a;
    } else {
      assert (a + b)[..|a + b| - 1] == a + b[..|b| - 1];
      AlertLinesAppend(a, b[..|b| - 1]);
    }
  }

  lemma {:induction false} AlertHistoryAppend(a: seq<string>, b: seq<string>)
    ensures AlertHistory(a + b) == AlertHistory(a) + AlertHistory(b)
  {
    hide AlertIn;
    if b == [] {
      assert a + b == a;
    } else {
      assert (a + b)[..|a + b| - 1] == a + b[..|b| - 1];
      AlertHistoryAppend(a, b[..|b| - 1]);
    }
  }

  lemma HasAppend(a: seq<string>, x: seq<AlertEvent>, b: seq<string>, y: seq<AlertEvent>)
    requires HasAlerts(a, x) && HasAlerts(b, y)
    ensures HasAlerts(a + b, x + y)
  {
    hide AlertLines, AlertHistory, AlertText, AlertJson;
    AlertLinesAppend(a, b);
    AlertHistoryAppend(a, b);
    assert AlertTexts(x + y) == AlertTexts(x) + AlertTexts(y);
    assert AlertJsons(x + y) == AlertJsons(x) + AlertJsons(y);
  }

  ghost predicate Silent(lines: seq<string>) {
    forall i :: 0 <= i < |lines| ==> AlertIn(lines[i]) == []
  }

  lemma {:induction false} HasNone(lines: seq<string>)
    requires Silent(lines)
    ensures HasAlerts(lines, [])
  {
    hide AlertIn;
    if lines != [] {
      HasNone(lines[..|lines| - 1]);
    }
  }

  lemma HasOne(a: AlertEvent)
    requires CleanAlert(a)
    ensures HasAlerts([AlertText(a)], [a])
  {
    hide AlertText, AlertJson, AlertIn, CleanAlert;
    AlertRead(a);
    var text := AlertText(a);
    assert [text][..0] == [];
    assert AlertTexts([a]) == [text] && AlertJsons([a]) == [AlertJson(a)];
    assert AlertLines([]) == [] && AlertHistory([]) == [];
  }

  lemma AlertRead(a: AlertEvent)
    requires CleanAlert(a)
    ensures AlertIn(AlertText(a)) == [AlertJson(a)]
  {
    hide AlertText, AlertJson, CleanAlert, AlertEventJson, Loads, Trim, Get, Shaped, CleanJson, Render, HandleText;
    AlertEventKind(a);
    EventHandled(AlertText(a), AlertEventJson(a), NO_BOARD, QUIET);
  }

  const NO_BOARD := Board(false, None, map[], [], [], JArr([]), JObj([]))

  lemma QuietRead(text: string, j: Json, kind: string)
    requires EventOf(text, j, kind) && kind != "alert"
    ensures AlertIn(text) == []
  {
    hide Loads, Trim, Get, Shaped, CleanJson, Render, HandleText;
    EventHandled(text, j, NO_BOARD, QUIET);
  }

  lemma {:induction false} HasAll(alerts: seq<AlertEvent>)
    requires forall i :: 0 <= i < |alerts| ==> CleanAlert(alerts[i])
    ensures HasAlerts(AlertTexts(alerts), alerts)
  {
    hide AlertText, CleanAlert, HasAlerts;
    if alerts == [] {
      HasNone([]);
      assert AlertTexts([]) == [];
    } else {
      var init, last := alerts[..|alerts| - 1], alerts[|alerts| - 1];
      HasAll(init);
      HasOne(last);
      HasAppend(AlertTexts(init), init, [AlertText(last)], [last]);
      assert alerts == init + [last] && AlertTexts(alerts) == AlertTexts(init) + [AlertText(last)];
    }
  }

  // ---- the payloads of each request ---------------------------------------------------------------------

  lemma MetricSilent(m: Metric)
    requires CleanMetric(m)
    ensures AlertIn(MetricText(m)) == []
  {
    hide MetricText, MetricEventJson, CleanMetric, AlertIn;
    MetricEvent(m);
    QuietRead(MetricText(m), MetricEventJson(m), "metric");
  }

  lemma RulesSilent(rules: seq<AlertRule>)
    requires forall i :: 0 <= i < |rules| ==> CleanRule(rules[i])
    ensures AlertIn(RulesText(rules)) == []
  {
    hide RulesText, RulesEventJson, CleanRule, AlertIn;
    RulesEvent(rules);
    QuietRead(RulesText(rules), RulesEventJson(rules), "rules");
  }

  lemma ChatSilent(c: ChatMessage)
    requires Clean(c.sender) && Clean(c.text) && Clean(c.timestamp)
    ensures AlertIn(ChatText(c)) == []
  {
    hide ChatText, ChatEventJson, Clean, AlertIn;
    ChatEvent(c);
    QuietRead(ChatText(c), ChatEventJson(c), "chat");
  }

  lemma NoticeSilent(message: string)
    requires Clean(message)
    ensures AlertIn(AckText(message)) == [] && AlertIn(ErrorText(message)) == []
  {
    hide AckText, ErrorText, AckEventJson, ErrorEventJson, Clean, AlertIn;
    NoticeEvent(message);
    QuietRead(AckText(message), AckEventJson(message), "ack");
    QuietRead(ErrorText(message), ErrorEventJson(message), "error");
  }

  lemma SnapshotSilent(stamp: string, latest: map<string, Metric>)
    requires Clean(stamp) && forall h :: h in latest ==> CleanMetric(latest[h])
    ensures AlertIn(SnapshotText(stamp, latest)) == []
  {
    hide SnapshotEventJson, Clean, CleanMetric, AlertIn, Render;
    SnapshotEvent(stamp, Listing(latest));
    QuietRead(SnapshotText(stamp, latest), SnapshotEventJson(stamp, Listing(latest)), "snapshot");
  }

  /** The alerts a request emits. */
  function EmittedBy(core: Core, q: Request, clock: seq<string>): seq<AlertEvent> {
    if q.Report? then Emits(core, Observe(q.metric, Later(clock))) else []
  }

  /** Of what is published, exactly the emitted alerts are alerts. */
  lemma PublishedAlerts(core: Core, q: Request, clock: seq<string>)
    requires CleanCore(core) && CleanRequest(q) && CleanClock(clock)
    ensures HasAlerts(Published(core, q, clock), EmittedBy(core, q, clock))
  {
    hide Clean, CleanRule, CleanMetric, HasAlerts, AlertIn, Emits, MetricText, AlertTexts, ChatText, RulesText, CleanAlert;
    CleanReading(clock, 0);
    match q
    case Report(m) =>
      var alerts := Emits(core, Observe(m, Later(clock)));
      MetricSilent(m);
      HasNone([MetricText(m)]);
      forall i | 0 <= i < |alerts|
        ensures CleanAlert(alerts[i])
      {
        CleanEmission(core, m, Later(clock), i);
      }
      HasAll(alerts);
      HasAppend([MetricText(m)], [], AlertTexts(alerts), alerts);
      assert [] + alerts == alerts;
    case AddRule(r) =>
      NoticeTexts(r);
      ChatSilent(RuleNotice(r, Reading(clock, 0)));
      RulesSilent(core.rules + [r]);
      HasNone(Published(core, q, clock));
    case Talk(c) =>
      ChatSilent(c);
      HasNone(Published(core, q, clock));
    case _ =>
      HasNone([]);
  }

  /** No reply is an alert. */
  lemma RepliesSilent(core: Core, c: Client, q: Request, clock: seq<string>)
    requires CleanCore(core) && CleanRequest(q) && CleanClock(clock)
    ensures HasAlerts(Replies(core, c, q, clock), [])
  {
    hide Clean, CleanRule, CleanMetric, HasAlerts, AlertIn, AckText, ErrorText, RulesText, SnapshotText, NatText, NewRole;
    CleanReading(clock, 0);
    ErrorTexts();
    match q {
      case Hello(role, _) =>
        GreetingClean(role);
        NoticeSilent("registered as " + role);
        SnapshotSilent(Reading(clock, 0), core.latest);
        RulesSilent(core.rules);
      case AddRule(r) =>
        NoticeTexts(r);
        NoticeSilent("rule added: " + r.rawCommand);
      case BadAlert => NoticeSilent("expected /alert CPU>80% or /alert MEMORY>70%");
      case ListRules => RulesSilent(core.rules);
      case CountHosts =>
        CountText(|core.latest|);
        NoticeSilent("connected agents: " + NatText(|core.latest|));
      case UnknownCommand => NoticeSilent("unknown command");
      case Unsupported => NoticeSilent("unsupported message");
      case _ =>
    }
    HasNone(Replies(core, c, q, clock));
  }

  // ---- every run ---------------------------------------------------------------------------------------------

  /** The alerts emitted by the steps of a run during which the connection now at position k was in the
      dashboard role. */
  ghost function AlertsSince(steps: seq<Step>, k: nat): seq<AlertEvent> {
    if steps == [] then [] else
      var n := |steps| - 1;
      var s := RunSteps(START, steps[..n]);
      var j := Earlier(s, steps[n], k);
      if steps[n].Accept? && k == |s.clients| then [] else
        AlertsSince(steps[..n], j) +
        if j < |s.clients| && s.clients[j].role == Server.Dashboard then AlertsAt(steps, n) else []
  }

  lemma AddedAlerts(s: State, step: Step, c: Client, k: nat)
    requires CleanState(s) && CleanStep(step)
    ensures var e := StepInput(s, step);
            HasAlerts(Added(s, step, c, k), if c.role == Server.Dashboard && e != [] then Emits(s.core, e[0]) else [])
  {
    hide Clean, CleanCore, CleanClient, CleanRequest, HasAlerts, Published, Replies, Emits, Classify, FirstOf, HasLine;
    HasNone([]);
    if RequestOf(s, step).Some? {
      var q := RequestOf(s, step).value;
      CleanTake(s, step.index, step.clock);
      PublishedAlerts(s.core, q, step.clock);
      RepliesSilent(s.core, c, q, step.clock);
      var news := if c.role == Server.Dashboard then Published(s.core, q, step.clock) else [];
      var answer := if k == step.index then Replies(s.core, c, q, step.clock) else [];
      var alerts := if c.role == Server.Dashboard then EmittedBy(s.core, q, step.clock) else [];
      HasAppend(news, alerts, answer, []);
      assert alerts + [] == alerts;
      RulesEmitNothing(s.core, q, step.clock);
    }
  }

  lemma RulesEmitNothing(core: Core, q: Request, clock: seq<string>)
    ensures var e := InputOf(q, clock);
            (if e.None? then [] else Emits(core, e.value)) == EmittedBy(core, q, clock)
  {
    hide Evaluate;
  }

  /** In every clean run, the alerts on a connection's stream are exactly those emitted while it was a
      dashboard: all of them, in order, once each, whatever came and went beside it. */
  lemma {:induction false} StreamHasItsAlerts(steps: seq<Step>, k: nat)
    requires CleanSteps(steps) && k < |RunSteps(START, steps).clients|
    ensures HasAlerts(RunSteps(START, steps).clients[k].out, AlertsSince(steps, k))
  {
    hide Do, HasAlerts, CleanState, CleanStep, Added, StepInput, Emits;
    if steps != [] {
      var n := |steps| - 1;
      var before, last := steps[..n], steps[n];
      var s := RunSteps(START, before);
      if last.Accept? && k == |s.clients| {
        NewHasNone(s, last);
      } else {
        var j := Earlier(s, last, k);
        StepOut(s, last, k);
        StreamHasItsAlerts(before, j);
        CleanRun(before);
        AddedAlerts(s, last, s.clients[j], k);
        var more := if s.clients[j].role == Server.Dashboard then AlertsAt(steps, n) else [];
        HasAppend(s.clients[j].out, AlertsSince(before, j), Added(s, last, s.clients[j], k), more);
      }
    }
  }

  lemma NewHasNone(s: State, step: Step)
    requires step.Accept?
    ensures |Do(s, step).clients| == |s.clients| + 1 && HasAlerts(Do(s, step).clients[|s.clients|].out, [])
  {
    HasNone([]);
  }

  /** So a board that read the stream holds the last 50 of these alerts, after what it held before. */
  lemma BoardHoldsItsAlerts(steps: seq<Step>, k: nat, b: Board, envs: seq<Env>)
    requires CleanSteps(steps) && k < |RunSteps(START, steps).clients|
    requires |b.alerts| <= ALERT_WINDOW && |b.chat| <= CHAT_WINDOW
    ensures var o := Replay(Running(b), RunSteps(START, steps).clients[k].out, envs);
            o.Running? && IsEndOf(o.board.alerts, b.alerts + AlertJsons(AlertsSince(steps, k)), 50)
  {
    hide RunSteps, Replay, CleanSteps, AlertsSince, AlertJsons, AlertLines, AlertTexts, AlertHistory, Last, IsEndOf, States, LagsWithin, Mirrors,
         AlertsJustified, OneLineEach;
    var out := RunSteps(START, steps).clients[k].out;
    RunIsGood(steps);
    assert Good(RunSteps(START, steps).clients[k], RunSteps(START, steps).core, States(steps));
    assert Replay(Running(b), out, envs).Running?;
    StreamHasItsAlerts(steps, k);
    WindowsHoldHistory(b, out, envs);
  }

  // ---- rising edges on the streams ------------------------------------------------------------------------------

  /** The connection at position k after step n was there before it, as a dashboard. */
  ghost predicate Listens(steps: seq<Step>, n: nat, k: nat) {
    && n < |steps|
    && var s := RunSteps(START, steps[..n]);
       && k < |RunSteps(START, steps[..n + 1]).clients| && !(steps[n].Accept? && k == |s.clients|)
       && Earlier(s, steps[n], k) < |s.clients| && s.clients[Earlier(s, steps[n], k)].role == Server.Dashboard
  }

  /** What its stream gains by step n. */
  ghost function Gained(steps: seq<Step>, n: nat, k: nat): seq<string>
    requires Listens(steps, n, k)
  {
    var s := RunSteps(START, steps[..n]);
    var before, after := s.clients[Earlier(s, steps[n], k)].out, RunSteps(START, steps[..n + 1]).clients[k].out;
    if before <= after then after[|before|..] else after
  }

  lemma GainedAlerts(steps: seq<Step>, n: nat, k: nat)
    requires CleanSteps(steps) && Listens(steps, n, k)
    ensures var s := RunSteps(START, steps[..n]);
            && RunSteps(START, steps[..n + 1]).clients[k].out
                 == s.clients[Earlier(s, steps[n], k)].out + Gained(steps, n, k)
            && HasAlerts(Gained(steps, n, k), AlertsAt(steps, n))
  {
    hide Do, HasAlerts, CleanState, CleanStep, Added, StepInput, Emits;
    var s := RunSteps(START, steps[..n]);
    var c := s.clients[Earlier(s, steps[n], k)];
    assert steps[..n + 1][..n] == steps[..n];
    StepOut(s, steps[n], k);
    CleanRun(steps[..n]);
    AddedAlerts(s, steps[n], c, k);
    assert (c.out + Added(s, steps[n], c, k))[|c.out|..] == Added(s, steps[n], c, k);
  }

  /** Edge-triggered alerts as dashboards see them: in every clean run, what a dashboard's stream gains by a step
      holds exactly the step's alerts, one for a command when the metric accepted is a rising edge of the run's
      history, and none otherwise. */
  lemma EdgesOnStreams(steps: seq<Step>, n: nat, k: nat, raw: string)
    requires CleanSteps(steps) && Listens(steps, n, k)
    ensures var inputs, at := Inputs(START, steps), |Inputs(START, steps[..n])|;
            && HasAlerts(Gained(steps, n, k), AlertsAt(steps, n))
            && CountFor(AlertsAt(steps, n), raw) ==
               if MetricAt(steps, n).Some? && at < |inputs| && inputs[at].Observe? && RisingEdge(inputs, at, raw) then 1 else 0
  {
    hide RunSteps, Inputs, HasAlerts, AlertsAt, MetricAt, RisingEdge, CountFor, Gained, CleanSteps;
    GainedAlerts(steps, n, k);
    EdgeTriggered(steps, n, raw);
  }

  /** Some line carries an alert for this host and command. */
  ghost predicate Brings(lines: seq<string>, h: string, raw: string) {
    exists i :: 0 <= i < |AlertHistory(lines)| && Names(AlertHistory(lines)[i], h, raw)
  }

  ghost predicate Names(data: Json, h: string, raw: string) {
    data.JObj? && Get(data.fields, "host") == Some(JStr(h)) && Get(data.fields, "rule") == Some(JStr(raw))
  }

  lemma {:induction false} CountsIt(alerts: seq<AlertEvent>, i: nat, raw: string)
    requires i < |alerts| && alerts[i].rule == raw
    ensures CountFor(alerts, raw) > 0
  {
    var n := |alerts| - 1;
    if i < n {
      CountsIt(alerts[..n], i, raw);
    }
  }

  lemma BroughtAlert(steps: seq<Step>, n: nat, lines: seq<string>, h: string, raw: string)
    requires n < |steps| && HasAlerts(lines, AlertsAt(steps, n)) && Brings(lines, h, raw)
    ensures CountFor(AlertsAt(steps, n), raw) > 0 && MetricAt(steps, n).Some? && MetricAt(steps, n).value.host == h
  {
    hide RunSteps, StepInput, AlertLines, AlertHistory, Get, Evaluate, AlertSource, AlertFinding, RuleMatches, CountFor;
    var alerts := AlertsAt(steps, n);
    var i :| 0 <= i < |AlertHistory(lines)| && Names(AlertHistory(lines)[i], h, raw);
    AlertFieldsByName(alerts[i]);
    CountsIt(alerts, i, raw);
    var core, e := RunSteps(START, steps[..n]).core, StepInput(RunSteps(START, steps[..n]), steps[n])[0];
    EvaluateAlerts(core.rules, e.metric, core.active, e.stamps, i);
  }

  /** Between two alerts for the same host and command on dashboards' streams, the same dashboard's or two
      different ones', the server accepted a metric of that host the command does not match. */
  lemma GapOnStreams(steps: seq<Step>, a: nat, ka: nat, b: nat, kb: nat, h: string, raw: string) returns (c: nat)
    requires CleanSteps(steps) && a < b && Listens(steps, a, ka) && Listens(steps, b, kb)
    requires Brings(Gained(steps, a, ka), h, raw) && Brings(Gained(steps, b, kb), h, raw)
    ensures a < c < b && MetricAt(steps, c).Some? && MetricAt(steps, c).value.host == h
    ensures !Matches(raw, MetricAt(steps, c).value)
  {
    hide RunSteps, HasAlerts, AlertsAt, MetricAt, CountFor, Gained, CleanSteps, Brings, Matches;
    GainedAlerts(steps, a, ka);
    GainedAlerts(steps, b, kb);
    BroughtAlert(steps, a, Gained(steps, a, ka), h, raw);
    BroughtAlert(steps, b, Gained(steps, b, kb), h, raw);
    c := GapInRuns(steps, a, b, raw);
  }

  // ---- the alert laws over runs ---------------------------------------------------------------------------------

  /** All alerts of a run, in order. */
  ghost function AlertsOf(steps: seq<Step>): seq<AlertEvent> {
    if steps == [] then [] else AlertsOf(steps[..|steps| - 1]) + AlertsAt(steps, |steps| - 1)
  }

  /** The alerts of one host in a run, in order. */
  ghost function HostAlerts(steps: seq<Step>, h: string): seq<AlertEvent> {
    if steps == [] then [] else
      var n := |steps| - 1;
      HostAlerts(steps[..n], h) +
      if MetricAt(steps, n).Some? && MetricAt(steps, n).value.host == h then AlertsAt(steps, n) else []
  }

  lemma {:induction false} AlertsOfHistory(steps: seq<Step>, h: string)
    ensures AlertsOf(steps) == Log(EMPTY, Inputs(START, steps))
    ensures HostAlerts(steps, h) == HostLog(Inputs(START, steps), h)
  {
    hide RunSteps, StepInput, Emits, Run;
    if steps != [] {
      var n := |steps| - 1;
      var before, e := Inputs(START, steps[..n]), StepInput(RunSteps(START, steps[..n]), steps[n]);
      AlertsOfHistory(steps[..n], h);
      StepInputShort(RunSteps(START, steps[..n]), steps[n]);
      CoreOfRun(steps[..n]);
      if e == [] {
        assert before + e == before;
        assert AlertsOf(steps[..n]) + [] == AlertsOf(steps[..n]) && HostAlerts(steps[..n], h) + [] == HostAlerts(steps[..n], h);
      } else {
        assert (before + e)[..|before + e| - 1] == before && (before + e)[|before|] == e[0];
      }
    }
  }

  /** Host non-interference over runs: two runs that accept the same metrics of a host and the same rules, in
      the same order, publish the same alerts for it, whatever other hosts report. */
  lemma HostsApart(a: seq<Step>, b: seq<Step>, h: string)
    requires Only(Inputs(START, a), h) == Only(Inputs(START, b), h)
    ensures HostAlerts(a, h) == HostAlerts(b, h)
  {
    hide Inputs, HostAlerts, HostLog, Only, Parsed;
    AlertsOfHistory(a, h);
    AlertsOfHistory(b, h);
    InputsParsed(a);
    InputsParsed(b);
    HostsDoNotInterfere(Inputs(START, a), h);
    HostsDoNotInterfere(Inputs(START, b), h);
  }

  lemma {:induction false} RunAppend(c: Core, a: seq<Input>, b: seq<Input>)
    ensures Run(c, a + b) == Run(Run(c, a), b)
    ensures Log(c, a + b) == Log(c, a) + Log(Run(c, a), b)
  {
    hide Apply, Emits;
    if b == [] {
      assert a + b == a;
    } else {
      assert (a + b)[..|a + b| - 1] == a + b[..|b| - 1];
      RunAppend(c, a, b[..|b| - 1]);
    }
  }

  /** Re-registration over runs: a run whose history has one more registration of a command already registered
      publishes the same alerts and ends with the same metrics and the same cache. */
  lemma ReRegistrationOverRuns(a: seq<Step>, b: seq<Step>, first: seq<Input>, r: AlertRule, later: seq<Input>)
    requires Inputs(START, a) == first + [Register(r)] + later && Inputs(START, b) == first + later
    requires Registered(RulesOf(first), r.rawCommand)
    ensures AlertsOf(a) == AlertsOf(b)
    ensures RunSteps(START, a).core.latest == RunSteps(START, b).core.latest
    ensures RunSteps(START, a).core.active == RunSteps(START, b).core.active
  {
    hide Inputs, RunSteps, Run, Log, Parsed, Registered, RulesOf, AlertsOf;
    AlertsOfHistory(a, "");
    AlertsOfHistory(b, "");
    CoreOfRun(a);
    CoreOfRun(b);
    InputsParsed(a);
    ParsedParts(first, Register(r), later);
    HistoryRules(first);
    var c, d := Run(EMPTY, first + [Register(r)]), Run(EMPTY, first);
    RunAppend(EMPTY, first + [Register(r)], later);
    RunAppend(EMPTY, first, later);
    RunAppend(EMPTY, first, [Register(r)]);
    RegisterOnly(d, r);
    assert d.rules + [] == d.rules && d.rules + [r] + [] == d.rules + [r];
    DuplicateIsSilent(c, d, d.rules, r, later);
    assert Log(EMPTY, first) + [] == Log(EMPTY, first);
  }

  lemma ParsedParts(first: seq<Input>, e: Input, later: seq<Input>)
    requires ParsedInputs(first + [e] + later)
    ensures ParsedInputs(first) && (e.Register? ==> Parsed(e.rule))
  {
    hide Parsed;
    var all := first + [e] + later;
    assert all[|first|] == e && forall i :: 0 <= i < |first| ==> all[i] == first[i];
  }

  lemma RegisterOnly(c: Core, r: AlertRule)
    ensures Run(c, [Register(r)]) == c.(rules := c.rules + [r]) && Log(c, [Register(r)]) == []
  {
    assert [Register(r)][..0] == [];
    assert Run(c, []) == c && Log(c, []) == [];
  }

  lemma {:induction false} OnlyAppend(a: seq<Input>, b: seq<Input>, h: string)
    ensures Only(a + b, h) == Only(a, h) + Only(b, h)
  {
    if b == [] {
      assert a + b == a;
    } else {
      assert (a + b)[..|a + b| - 1] == a + b[..|b| - 1];
      OnlyAppend(a, b[..|b| - 1], h);
    }
  }

  lemma OnlyTwo(e1: Input, e2: Input, h: string)
    requires e1.Observe? && e2.Observe? && e1.metric.host != e2.metric.host
    ensures Only([e1, e2], h) == Only([e2, e1], h)
  {
    assert [e1, e2][..1] == [e1] && [e2, e1][..1] == [e2] && [e1][..0] == [] && [e2][..0] == [];
    assert Only([], h) == [];
  }

  /** Swapping over runs: two runs whose histories differ by the order of two neighbouring metrics of different
      hosts end with the same core, and publish the same alerts for every host. */
  lemma SwapOverRuns(a: seq<Step>, b: seq<Step>, first: seq<Input>, e1: Input, e2: Input, later: seq<Input>, h: string)
    requires e1.Observe? && e2.Observe? && e1.metric.host != e2.metric.host
    requires Inputs(START, a) == first + [e1, e2] + later && Inputs(START, b) == first + [e2, e1] + later
    ensures RunSteps(START, a).core == RunSteps(START, b).core
    ensures HostAlerts(a, h) == HostAlerts(b, h)
  {
    hide Inputs, RunSteps, Run, Only, Parsed, HostAlerts, Apply;
    OnlyAppend(first + [e1, e2], later, h);
    OnlyAppend(first + [e2, e1], later, h);
    OnlyAppend(first, [e1, e2], h);
    OnlyAppend(first, [e2, e1], h);
    OnlyTwo(e1, e2, h);
    HostsApart(a, b, h);
    CoreOfRun(a);
    CoreOfRun(b);
    InputsParsed(a);
    assert first + [e1, e2] + later == first + [e1] + ([e2] + later);
    ParsedParts(first, e1, [e2] + later);
    HistoryRules(first);
    RunAppend(EMPTY, first + [e1, e2], later);
    RunAppend(EMPTY, first + [e2, e1], later);
    RunAppend(EMPTY, first, [e1, e2]);
    RunAppend(EMPTY, first, [e2, e1]);
    RunTwo(Run(EMPTY, first), e1, e2);
    RunTwo(Run(EMPTY, first), e2, e1);
    SwapMetrics(Run(EMPTY, first), e1, e2);
  }

  lemma RunTwo(c: Core, e1: Input, e2: Input)
    ensures Run(c, [e1, e2]) == Apply(Apply(c, e1), e2)
  {
    hide Apply;
    assert [e1, e2][..1] == [e1] && [e1][..0] == [];
    assert Run(c, [e1]) == Apply(c, e1);
  }

  /** In every run a stored command decides its rule: two stored rules with the same command are equal, and any
      text that trims to it parses to them. */
  lemma StoredCommandDecides(steps: seq<Step>, i: nat, j: nat, text: string)
    requires i < |RunSteps(START, steps).core.rules| && j < |RunSteps(START, steps).core.rules|
    ensures var rules := RunSteps(START, steps).core.rules;
            && (rules[i].rawCommand == rules[j].rawCommand ==> rules[i] == rules[j])
            && (Trim(text) == rules[i].rawCommand ==> ParseAlertCommand(text) == Some(rules[i]))
  {
    hide RunSteps, ParseAlertCommand, Trim;
    RunCoreFacts(steps);
    ParseTrimInvariant(text);
  }

  // ---- joining when something is unclean ---------------------------------------------------------------------------

  /** The snapshot a dashboard is greeted with, in every run: it is handled exactly when its time and every
      stored metric are clean; otherwise the dashboard raises with its board unchanged, and will at every
      attempt until the metric is overwritten. */
  lemma GreetedIffClean(steps: seq<Step>, stamp: string, b: Board, env: Env)
    ensures var latest := RunSteps(START, steps).core.latest;
            var clean := Clean(stamp) && forall h :: h in latest ==> CleanMetric(latest[h]);
            var o := HandleText(Running(b), SnapshotText(stamp, latest), env);
            && (clean ==> o.Running? && o.board.metrics == Printed(latest))
            && (!clean ==> o == Raised(b))
  {
    hide RunSteps, HandleText, CleanMetric, Clean, SnapshotText, All, KeepsRules, AlertData, Printed, ParsedRules, RealRules;
    var latest := RunSteps(START, steps).core.latest;
    RunCoreFacts(steps);
    if Clean(stamp) && forall h :: h in latest ==> CleanMetric(latest[h]) {
      SnapshotEffect(stamp, latest);
      assert ShowsAll(SnapshotText(stamp, latest), latest);
    } else {
      UncleanSnapshot(stamp, latest, b, env);
    }
  }

  lemma UncleanSnapshot(stamp: string, latest: map<string, Metric>, b: Board, env: Env)
    requires Keyed(latest) && !(Clean(stamp) && forall h :: h in latest ==> CleanMetric(latest[h]))
    ensures HandleText(Running(b), SnapshotText(stamp, latest), env) == Raised(b)
  {
    hide SnapshotEventJson, HandleEvent, Loads, Trim, CleanJson, Shaped, CleanMetric, Clean, Listing, Render;
    var ms := Listing(latest);
    UncleanListed(latest);
    SnapshotShape(stamp, ms);
    LoadsRender(SnapshotEventJson(stamp, ms));
    SnapshotStarts(stamp, ms);
    NotBlank(SnapshotText(stamp, latest));
  }

  lemma UncleanListed(latest: map<string, Metric>)
    requires Keyed(latest)
    ensures (forall h :: h in latest ==> CleanMetric(latest[h])) <==>
            (forall i :: 0 <= i < |Listing(latest)| ==> CleanMetric(Listing(latest)[i]))
  {
    hide CleanMetric, Listing;
    ListingComplete(latest);
    var ms := Listing(latest);
    forall h | h in latest && forall i :: 0 <= i < |ms| ==> CleanMetric(ms[i])
      ensures CleanMetric(latest[h])
    {
      var i :| 0 <= i < |ms| && ms[i].host == h;
    }
  }

  lemma SnapshotStarts(stamp: string, ms: seq<Metric>)
    ensures Render(SnapshotEventJson(stamp, ms)) != [] && Render(SnapshotEventJson(stamp, ms))[0] == '{'
  {
    hide RenderFields;
  }
}
