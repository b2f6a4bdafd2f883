/** The guarantees of the whole system, over every run of the server. */
module Theorems {
  import opened Text
  import opened Decimal
  import opened Json
  import opened Records
  import opened Command
  import opened Wire
  import opened Framing
  import opened Alerting
  import opened Server
  import opened Hygiene
  import opened Rounds
  import opened Dashboard
  import opened Replication
  import opened Mirror
  import opened Consistency

  // ---- one served request ------------------------------------------------------------------------

  lemma NoticeTexts(rule: AlertRule)
    requires CleanRule(rule)
    ensures Clean("Registered alert rule: " + rule.rawCommand) && Clean("rule added: " + rule.rawCommand)
    ensures Clean("system")
  {
    CleanConcat("Registered alert rule: ", rule.rawCommand);
    CleanConcat("rule added: ", rule.rawCommand);
  }

  lemma ErrorTexts()
    ensures Clean("expected /alert CPU>80% or /alert MEMORY>70%") && Clean("unknown command") && Clean("unsupported message")
  {
    hide Clean;
    UsageText();
    UnknownText();
  }

  lemma UsageText()
    ensures Clean("expected /alert CPU>80% or /alert MEMORY>70%")
  {}

  lemma UnknownText()
    ensures Clean("unknown command") && Clean("unsupported message")
  {}

  lemma CountText(n: nat)
    ensures Clean("connected agents: " + NatText(n))
  {
    CleanConcat("connected agents: ", NatText(n));
  }

  lemma RuleNoticeKeeps(lines: seq<string>, core: Core, r: AlertRule, clock: seq<string>, past: seq<Core>)
    requires CleanCore(core) && CleanRule(r) && CleanClock(clock)
    requires Sound(lines, past) && Mirrors(lines, core.latest, core.rules, past)
    ensures var more := Published(core, AddRule(r), clock);
            Sound(lines + more, past) && Mirrors(lines + more, core.latest, core.rules + [r], past)
  {
    hide Clean, CleanRule, Sound, Mirrors, ChatText, RulesText, CleanMetric;
    var notice := RuleNotice(r, Reading(clock, 0));
    NoticeTexts(r);
    CleanReading(clock, 0);
    ChatKeeps(lines, notice, past, core.latest, core.rules);
    RulesKeep(lines + [ChatText(notice)], core.rules + [r], past, core.latest, core.rules);
    assert lines + [ChatText(notice), RulesText(core.rules + [r])]
        == lines + [ChatText(notice)] + [RulesText(core.rules + [r])];
  }

  /** What every dashboard receives brings its stream to the new state. */
  lemma PublishedKeeps(lines: seq<string>, core: Core, q: Request, clock: seq<string>, past: seq<Core>)
    requires CleanCore(core) && CleanRequest(q) && CleanClock(clock) && RealRules(core.rules)
    requires Sound(lines, past) && Mirrors(lines, core.latest, core.rules, past)
    requires Newest(past, Advance(core, InputOf(q, clock)).latest, Advance(core, InputOf(q, clock)).rules)
    ensures var next := Advance(core, InputOf(q, clock));
            var more := Published(core, q, clock);
            Sound(lines + more, past) && Mirrors(lines + more, next.latest, next.rules, past)
  {
    hide Clean, CleanCore, CleanRule, CleanMetric, CleanClock, RealRules, Sound, Mirrors, Evaluate, ChatText, Published;
    match q
    case Report(m) =>
      ReportKeeps(lines, core, m, clock, past);
    case AddRule(r) =>
      RuleNoticeKeeps(lines, core, r, clock, past);
    case Talk(c) =>
      ChatKeeps(lines, c, past, core.latest, core.rules);
      TalkPublished(core, c, clock);
    case _ =>
      NothingPublished(core, q, clock);
      assert lines + [] == lines;
  }

  lemma TalkPublished(core: Core, c: ChatMessage, clock: seq<string>)
    ensures Published(core, Talk(c), clock) == [ChatText(c)]
  {
    hide ChatText;
  }

  lemma NothingPublished(core: Core, q: Request, clock: seq<string>)
    requires !q.Report? && !q.AddRule? && !q.Talk?
    ensures Published(core, q, clock) == []
  {}

  /** What the sender alone receives keeps its stream, for every request but a registration. */
  lemma RepliesKeep(lines: seq<string>, core: Core, c: Client, q: Request, clock: seq<string>, past: seq<Core>)
    requires CleanCore(core) && CleanRequest(q) && !q.Hello?
    requires Sound(lines, past)
    ensures var next := Advance(core, InputOf(q, clock));
            var more := Replies(core, c, q, clock);
            && Sound(lines + more, past)
            && (Mirrors(lines, next.latest, next.rules, past) ==> Mirrors(lines + more, next.latest, next.rules, past))
  {
    hide Clean, CleanRule, CleanMetric, Sound, Mirrors, Evaluate, AckText, ErrorText, RulesText, Greeting, NatText;
    var next := Advance(core, InputOf(q, clock));
    assert lines + [] == lines;
    match q
    case AddRule(r) =>
      NoticeTexts(r);
      NoticeKeeps(lines, "rule added: " + r.rawCommand, past, next.latest, next.rules);
    case BadAlert =>
      ErrorTexts();
      NoticeKeeps(lines, "expected /alert CPU>80% or /alert MEMORY>70%", past, next.latest, next.rules);
    case ListRules =>
      RulesKeep(lines, core.rules, past, next.latest, next.rules);
    case CountHosts =>
      CountText(|core.latest|);
      NoticeKeeps(lines, "connected agents: " + NatText(|core.latest|), past, next.latest, next.rules);
    case UnknownCommand =>
      ErrorTexts();
      NoticeKeeps(lines, "unknown command", past, next.latest, next.rules);
    case Unsupported =>
      ErrorTexts();
      NoticeKeeps(lines, "unsupported message", past, next.latest, next.rules);
    case _ =>
  }

  /** The invariant of one connection. */
  ghost predicate Good(c: Client, core: Core, past: seq<Core>) {
    Sound(c.out, past) && (c.role == Server.Dashboard ==> Mirrors(c.out, core.latest, core.rules, past))
  }

  lemma GoodGrows(c: Client, core: Core, past: seq<Core>, more: seq<Core>)
    requires Good(c, core, past) && past <= more
    ensures Good(c, core, more)
  {
    hide LagsWithin, Alive, OneLineEach, AlertsJustified, Mirrors;
    LagGrows(c.out, past, more);
    JustifiedGrows(c.out, past, more);
    if c.role == Server.Dashboard {
      MirrorsGrow(c.out, core.latest, core.rules, past, more);
    }
  }

  lemma MirrorsGrow(lines: seq<string>, latest: Latest, rules: seq<AlertRule>, past: seq<Core>, more: seq<Core>)
    requires Mirrors(lines, latest, rules, past) && past <= more
    ensures Mirrors(lines, latest, rules, more)
  {
    hide LastSnapshot, ShowsMetrics, ShowsRules;
    var j, stamp, base :| MirrorsFrom(lines, latest, rules, j, stamp, base, past);
    var n :| 0 <= n < |past| && past[n].latest == base;
    assert more[n].latest == base;
    assert MirrorsFrom(lines, latest, rules, j, stamp, base, more);
  }

  /** Every dashboard receives exactly what is published, in order; the sender also its replies. */
  lemma ServeDelivers(s: State, i: nat, q: Request, clock: seq<string>, k: nat)
    requires i < |s.clients| && k < |s.clients|
    ensures var c, d := s.clients[k], Serve(s, i, q, clock).clients[k];
            var named := if k == i then Introduce(c, q) else c;
            && d.role == named.role
            && d.out == c.out + (if named.role == Server.Dashboard then Published(s.core, q, clock) else [])
                              + (if k == i then Replies(s.core, c, q, clock) else [])
  {
    hide Published, Replies, Advance, InputOf, NewRole;
    var c := s.clients[k];
    assert c.out + [] == c.out;
  }

  lemma GoodHello(c: Client, core: Core, q: Request, clock: seq<string>, past: seq<Core>, d: Client)
    requires CleanCore(core) && Keyed(core.latest) && CleanRequest(q) && CleanClock(clock) && q.Hello?
    requires Sound(c.out, past) && Newest(past, core.latest, core.rules)
    requires d.role == NewRole(c.role, q.role) && d.out == c.out + Replies(core, c, q, clock)
    ensures Good(d, core, past)
  {
    hide Clean, CleanCore, CleanClock, Sound, Mirrors, AckText, SnapshotText, RulesText, Keyed;
    if d.role == Server.Dashboard {
      GreetingMirrors(c.out, q.role, core, clock, past);
    } else {
      GreetingClean(q.role);
      NoticeKeeps(c.out, "registered as " + q.role, past, core.latest, core.rules);
      assert [AckText("registered as " + q.role)] + [] == [AckText("registered as " + q.role)];
    }
  }

  lemma GoodServe(s: State, i: nat, q: Request, clock: seq<string>, k: nat, past: seq<Core>)
    requires i < |s.clients| && k < |s.clients|
    requires CleanCore(s.core) && Keyed(s.core.latest) && RealRules(s.core.rules) && CleanRequest(q) && CleanClock(clock)
    requires Good(s.clients[k], s.core, past)
    requires Newest(past, Advance(s.core, InputOf(q, clock)).latest, Advance(s.core, InputOf(q, clock)).rules)
    ensures Good(Serve(s, i, q, clock).clients[k], Advance(s.core, InputOf(q, clock)), past)
  {
    hide Clean, CleanCore, CleanClock, CleanRequest, Sound, Mirrors, Keyed, RealRules, Evaluate, Published, Replies, Apply, NewRole;
    var c, d := s.clients[k], Serve(s, i, q, clock).clients[k];
    ServeDelivers(s, i, q, clock, k);
    if q.Hello? {
      NothingPublished(s.core, q, clock);
      assert c.out + [] == c.out;
      if k == i {
        GoodHello(c, s.core, q, clock, past, d);
      } else {
        assert c.out + [] + [] == c.out;
      }
    } else {
      var told := if c.role == Server.Dashboard then Published(s.core, q, clock) else [];
      if c.role == Server.Dashboard {
        PublishedKeeps(c.out, s.core, q, clock, past);
      } else {
        assert c.out + told == c.out;
      }
      if k == i {
        RepliesKeep(c.out + told, s.core, c, q, clock, past);
      } else {
        assert c.out + told + [] == c.out + told;
      }
    }
  }

  // ---- every run -----------------------------------------------------------------------------------

  /** Every core the server has had along a run, in order. */
  ghost function States(steps: seq<Step>): (past: seq<Core>)
    ensures |past| == |steps| + 1
  {
    (if steps == [] then [] else States(steps[..|steps| - 1])) + [RunSteps(START, steps).core]
  }

  lemma {:induction false} StateAt(steps: seq<Step>, n: nat)
    requires n <= |steps|
    ensures States(steps)[n] == RunSteps(START, steps[..n]).core
  {
    hide RunSteps;
    if n == |steps| {
      assert steps[..n] == steps;
    } else {
      StateAt(steps[..|steps| - 1], n);
      assert steps[..|steps| - 1][..n] == steps[..n];
    }
  }

  ghost predicate GoodState(s: State, past: seq<Core>) {
    forall k :: 0 <= k < |s.clients| ==> Good(s.clients[k], s.core, past)
  }

  lemma RuleKeysReal(rules: seq<AlertRule>)
    requires ParsedRules(rules)
    ensures RealRules(rules)
  {
    hide ParseAlertCommand, RealMetricKey;
    forall i | 0 <= i < |rules|
      ensures RealMetricKey(rules[i].metricKey)
    {
      AcceptedRuleIsReal(rules[i].rawCommand);
    }
  }

  /** In every run each stored rule names a real metric and each metric sits under its own host. */
  lemma RunCoreFacts(steps: seq<Step>)
    ensures var core := RunSteps(START, steps).core;
            Keyed(core.latest) && ParsedRules(core.rules) && RealRules(core.rules)
  {
    hide RunSteps, Inputs, Run, Parsed, ParsedInputs, RealRules;
    CoreOfRun(steps);
    InputsParsed(steps);
    var inputs := Inputs(START, steps);
    HistoryRules(inputs);
    LastWrite(inputs);
    RuleKeysReal(RulesOf(inputs));
  }

  lemma FreshIsGood(fd: int, peer: string, core: Core, past: seq<Core>)
    requires past != []
    ensures Good(Fresh(fd, peer), core, past)
  {
    var lines: seq<string> := [];
    assert forall t :: 0 <= t <= |lines| ==> lines[..t] == [];
    assert LagsAlong(lines, past, [0]);
  }

  lemma GoodTake(s: State, i: nat, clock: seq<string>, past: seq<Core>)
    requires i < |s.clients| && HasLine(s.clients[i].buffer)
    requires CleanState(s) && CleanClock(clock) && Keyed(s.core.latest) && RealRules(s.core.rules)
    requires GoodState(s, past) && Newest(past, Take(s, i, clock).core.latest, Take(s, i, clock).core.rules)
    ensures GoodState(Take(s, i, clock), past)
  {
    hide Clean, CleanCore, Good, Keyed, RealRules, FirstOf, HasLine, Classify, Serve, CleanRequest, Advance;
    var (line, rest) := FirstOf(s.clients[i].buffer);
    var t := SetBuffer(s, i, rest);
    forall k | 0 <= k < |t.clients|
      ensures Good(t.clients[k], t.core, past)
    {
      GoodBuffer(s.clients[k], rest, s.core, past);
    }
    if line != "" {
      var q := Classify(t.clients[i], line, clock);
      CleanFirst(s.clients[i].buffer);
      CleanClassify(t.clients[i], line, clock);
      ServeCore(t, i, q, clock);
      forall k | 0 <= k < |t.clients|
        ensures Good(Serve(t, i, q, clock).clients[k], Serve(t, i, q, clock).core, past)
      {
        GoodServe(t, i, q, clock, k, past);
      }
    }
  }

  lemma ServeCore(s: State, i: nat, q: Request, clock: seq<string>)
    requires i < |s.clients|
    ensures Serve(s, i, q, clock).core == Advance(s.core, InputOf(q, clock))
  {
    hide Advance, InputOf, Published, Replies;
  }

  lemma GoodBuffer(c: Client, buffer: string, core: Core, past: seq<Core>)
    requires Good(c, core, past)
    ensures Good(c.(buffer := buffer), core, past)
  {
    hide Sound, Mirrors;
  }

  lemma GoodDo(s: State, step: Step, past: seq<Core>)
    requires CleanState(s) && CleanStep(step) && Keyed(s.core.latest) && RealRules(s.core.rules)
    requires GoodState(s, past) && Newest(past, Do(s, step).core.latest, Do(s, step).core.rules)
    ensures GoodState(Do(s, step), past)
  {
    hide Clean, CleanState, Good, Keyed, RealRules, HasLine, Take, CleanClock;
    match step
    case Accept(fd, peer) =>
      FreshIsGood(fd, peer, s.core, past);
    case Receive(i, chunk) =>
      if i < |s.clients| {
        GoodBuffer(s.clients[i], s.clients[i].buffer + chunk, s.core, past);
      }
    case TakeLine(i, clock) =>
      if i < |s.clients| && HasLine(s.clients[i].buffer) {
        GoodTake(s, i, clock, past);
      }
    case Disconnect(i) =>
  }

  lemma {:induction false} RunIsGood(steps: seq<Step>)
    requires CleanSteps(steps)
    ensures GoodState(RunSteps(START, steps), States(steps))
  {
    hide Do, Good, CleanState, CleanStep, Keyed, RealRules, ParsedRules;
    if steps != [] {
      var before, last := steps[..|steps| - 1], steps[|steps| - 1];
      RunIsGood(before);
      CleanRun(before);
      RunCoreFacts(before);
      var s := RunSteps(START, before);
      assert States(before) <= States(steps);
      forall k | 0 <= k < |s.clients|
        ensures Good(s.clients[k], s.core, States(steps))
      {
        GoodGrows(s.clients[k], s.core, States(before), States(steps));
      }
      GoodDo(s, last, States(steps));
    }
  }

  // ---- the theorems ------------------------------------------------------------------------------------

  /** Replication. In every run whose bytes, peer labels and clock readings carry no control
      character other than newline, carriage return and tab, a connection in the dashboard role that
      reads its whole stream, whatever its board held before, never raises and ends with the server's
      rules and with the server's printed metrics for every named host. The two maps are equal
      exactly when the metric under the empty host name is the one the last snapshot showed. */
  lemma ReplicaIsExact(steps: seq<Step>, k: nat, b: Board, envs: seq<Env>) returns (j: nat, stamp: string, base: Latest)
    requires CleanSteps(steps) && k < |RunSteps(START, steps).clients|
    requires RunSteps(START, steps).clients[k].role == Server.Dashboard
    ensures var s := RunSteps(START, steps);
            var o := Replay(Running(b), s.clients[k].out, envs);
            && o.Running?
            && o.board.rules == JArr(RulesJson(s.core.rules))
            && Agree(o.board.metrics, s.core.latest)
            && LastSnapshot(s.clients[k].out, j, stamp, base)
            && (o.board.metrics == Printed(s.core.latest)
                <==> Lookup(Printed(base), "") == Lookup(Printed(s.core.latest), ""))
            && ("" !in s.core.latest ==> o.board.metrics == Printed(s.core.latest))
  {
    hide RunSteps, Replay, Sound, CleanSteps, MetricJson, RulesJson, SnapshotText, IsSnapshot, LastSnapshot, Printed;
    RunIsGood(steps);
    var s := RunSteps(START, steps);
    var c := s.clients[k];
    assert Good(c, s.core, States(steps));
    j, stamp, base :| MirrorsFrom(c.out, s.core.latest, s.core.rules, j, stamp, base, States(steps));
    var o := Replay(Running(b), c.out, envs);
    SameMaps(o.board.metrics, s.core.latest, base);
  }

  lemma SameMaps(metrics: map<string, Json>, latest: Latest, base: Latest)
    requires Agree(metrics, latest) && Lookup(metrics, "") == Lookup(Printed(base), "") && base.Keys <= latest.Keys
    ensures metrics == Printed(latest) <==> Lookup(Printed(base), "") == Lookup(Printed(latest), "")
    ensures "" !in latest ==> metrics == Printed(latest)
  {
    hide MetricJson;
    if Lookup(metrics, "") == Lookup(Printed(latest), "") {
      EqualAsLookups(metrics, Printed(latest));
    }
  }

  lemma EqualAsLookups(a: map<string, Json>, b: map<string, Json>)
    requires forall h :: Lookup(a, h) == Lookup(b, h)
    ensures a == b
  {
    forall h
      ensures h in a <==> h in b
      ensures h in a && h in b ==> a[h] == b[h]
    {
      assert Lookup(a, h) == Lookup(b, h);
    }
    assert a.Keys == b.Keys;
  }

  /** The empty host name is where the two maps part: the server stores such a metric, a reader that was
      exact drops it. */
  lemma EmptyHostIsLost(lines: seq<string>, latest: Latest, m: Metric, b: Board, envs: seq<Env>)
    requires CleanMetric(m) && m.host == "" && "" !in latest
    requires Replay(Running(b), lines, envs).Running? && Replay(Running(b), lines, envs).board.metrics == Printed(latest)
    ensures Replay(Running(b), lines + [MetricText(m)], envs).board.metrics != Printed(latest[m.host := m])
  {
    hide Replay, HandleText, MetricText, CleanMetric, MetricJson, All, KeepsRules, IsSnapshot, AlertData;
    MetricEffect(m);
    ReplaySnoc(Running(b), lines, MetricText(m), envs);
    var now := Replay(Running(b), lines + [MetricText(m)], envs).board.metrics;
    assert now == Printed(latest) && "" !in now && "" in Printed(latest[m.host := m]);
  }

  /** A control character other than newline, carriage return and tab is where a stream breaks: the
      dashboard handles a metric event exactly when host and timestamp have none, and otherwise raises
      with its board unchanged. */
  lemma MetricHandledIffClean(m: Metric, b: Board, env: Env)
    ensures HandleText(Running(b), MetricText(m), env).Running? <==> CleanMetric(m)
    ensures !CleanMetric(m) ==> HandleText(Running(b), MetricText(m), env) == Raised(b)
  {
    hide CleanMetric, MetricEventJson, HandleEvent, Loads, Trim, CleanJson, Shaped;
    if CleanMetric(m) {
      hide HandleText, MetricText, KeepsRules, IsSnapshot, AlertData, All;
      MetricEffect(m);
    } else {
      MetricEventShape(m);
      LoadsRender(MetricEventJson(m));
      EventStarts(m);
      NotBlank(MetricText(m));
    }
  }

  lemma EventStarts(m: Metric)
    ensures MetricText(m) != [] && MetricText(m)[0] == '{'
  {
    hide RenderFields;
  }

  ghost predicate ShowsState(metrics: map<string, Json>, latest: Latest, base: Latest) {
    && Agree(metrics, latest)
    && (metrics == Printed(latest) <==> Lookup(Printed(base), "") == Lookup(Printed(latest), ""))
    && ("" !in latest ==> metrics == Printed(latest))
  }

  lemma ReaderHolds(lines: seq<string>, past: seq<Core>, n: nat, b: Board, envs: seq<Env>) returns (j: nat)
    requires Holds(lines, past, n)
    ensures j <= n < |past| && ShowsState(Replay(Running(b), lines, envs).board.metrics, past[n].latest, past[j].latest)
  {
    hide Replay, Printed;
    j :| HoldsState(lines, past, n, j);
    SameMaps(Replay(Running(b), lines, envs).board.metrics, past[n].latest, past[j].latest);
  }

  lemma SnapshotSeenLater(lines: seq<string>, t: nat, u: nat)
    requires t <= u <= |lines| && SeenSnapshot(lines[..t])
    ensures SeenSnapshot(lines[..u])
  {
    hide IsSnapshot;
    var j :| 0 <= j < |lines[..t]| && IsSnapshot(lines[..t][j]);
    assert lines[..u][j] == lines[..t][j];
  }

  /** Dashboards that lag behind. At any two positions t <= u of a stream past a snapshot a reader holds
      the metrics of the server after n and after p of the run's steps, and n <= p: states come in order.
      Its map is that state's printed map when no host is empty; in general, exactly when the metric under
      the empty name is that of the state the last snapshot showed. */
  lemma LaggingReader(steps: seq<Step>, k: nat, t: nat, u: nat, b: Board, envs: seq<Env>)
    returns (n: nat, j: nat, p: nat, i: nat)
    requires CleanSteps(steps) && k < |RunSteps(START, steps).clients|
    requires t <= u <= |RunSteps(START, steps).clients[k].out|
    requires SeenSnapshot(RunSteps(START, steps).clients[k].out[..t])
    ensures j <= n <= p <= |steps| && i <= p
    ensures var out := RunSteps(START, steps).clients[k].out;
            && ShowsState(Replay(Running(b), out[..t], envs).board.metrics, RunSteps(START, steps[..n]).core.latest,
                          RunSteps(START, steps[..j]).core.latest)
            && ShowsState(Replay(Running(b), out[..u], envs).board.metrics, RunSteps(START, steps[..p]).core.latest,
                          RunSteps(START, steps[..i]).core.latest)
  {
    hide RunSteps, Replay, CleanSteps, ShowsState, SeenSnapshot, Holds, Mirrors, Alive, OneLineEach, AlertsJustified, States;
    RunIsGood(steps);
    var c := RunSteps(START, steps).clients[k];
    assert Good(c, RunSteps(START, steps).core, States(steps));
    var at :| LagsAlong(c.out, States(steps), at);
    n, p := at[t], at[u];
    SnapshotSeenLater(c.out, t, u);
    j := ReaderHolds(c.out[..t], States(steps), n, b, envs);
    i := ReaderHolds(c.out[..u], States(steps), p, b, envs);
    StateAt(steps, n);
    StateAt(steps, j);
    StateAt(steps, p);
    StateAt(steps, i);
  }

  lemma {:induction false} InputsPrefix(steps: seq<Step>, n: nat)
    requires n <= |steps|
    ensures Inputs(START, steps[..n]) <= Inputs(START, steps)
  {
    hide RunSteps, StepInput;
    if n == |steps| {
      assert steps[..n] == steps;
    } else {
      InputsPrefix(steps[..|steps| - 1], n);
      assert steps[..|steps| - 1][..n] == steps[..n];
    }
  }

  lemma {:induction false} LatestIsObserved(inputs: seq<Input>, h: string) returns (p: nat)
    requires LatestOf(inputs, h).Some?
    ensures p < |inputs| && inputs[p].Observe? && inputs[p].metric == LatestOf(inputs, h).value
  {
    var n := |inputs| - 1;
    if inputs[n].Observe? && inputs[n].metric.host == h {
      p := n;
    } else {
      p := LatestIsObserved(inputs[..n], h);
    }
  }

  /** What the core holds after part of a run was accepted and registered in it. */
  lemma StateIsAccepted(steps: seq<Step>, n: nat, r: AlertRule, m: Metric) returns (p: nat)
    requires n <= |steps| && r in RunSteps(START, steps[..n]).core.rules
    requires Lookup(RunSteps(START, steps[..n]).core.latest, m.host) == Some(m)
    ensures p < |Inputs(START, steps)| && Inputs(START, steps)[p].Observe? && Inputs(START, steps)[p].metric == m
    ensures Parsed(r)
  {
    hide RunSteps, Inputs, Run, Parsed;
    var before := Inputs(START, steps[..n]);
    CoreOfRun(steps[..n]);
    InputsParsed(steps[..n]);
    HistoryRules(before);
    LastWrite(before);
    assert Lookup(History(before).latest, m.host) == LatestOf(before, m.host);
    p := LatestIsObserved(before, m.host);
    InputsPrefix(steps, n);
  }

  /** Cross-process alert consistency. Every alert on a connection's stream is the alert of a parsed rule on
      a metric it matches, where after some n of the run's steps the rule was registered and the metric was
      the one stored for its host, an accepted one; that metric's event precedes the alert with only other
      alerts between; a reader that meets the alert, whatever its board held at first, has that very metric
      stored for the host, with the alert's value under the alert's key; and the reader finds in the alert
      the rule's threshold, display name and command, and the sentence with the printed value. */
  lemma AlertsMatchBoard(steps: seq<Step>, k: nat, t: nat, b: Board, envs: seq<Env>)
    returns (i: nat, r: AlertRule, m: Metric, stamp: string, n: nat, p: nat)
    requires CleanSteps(steps) && k < |RunSteps(START, steps).clients|
    requires t < |RunSteps(START, steps).clients[k].out|
    requires AlertData(RunSteps(START, steps).clients[k].out[t]).Some?
    ensures var out := RunSteps(START, steps).clients[k].out;
            var held := Replay(Running(b), out[..t], envs).board.metrics;
            && out[t] == AlertText(AlertFor(r, m, stamp)) && Parsed(r) && RuleMatches(r, m) && Fired(out, i, t, m)
            && (m.host != "" ==> Lookup(held, m.host) == Some(MetricJson(m)))
            && Justified(held, AlertData(out[t]).value)
            && Reports(AlertData(out[t]).value, r, m, stamp)
    ensures n <= |steps| && r in RunSteps(START, steps[..n]).core.rules
            && Lookup(RunSteps(START, steps[..n]).core.latest, m.host) == Some(m)
    ensures p < |Inputs(START, steps)| && Inputs(START, steps)[p].Observe? && Inputs(START, steps)[p].metric == m
  {
    hide RunSteps, Replay, CleanSteps, Mirrors, Alive, OneLineEach, LagsWithin, States, AlertData, Justified, RuleMatches,
         AlertText, AlertFor, Fired, MetricJson, Parsed, Inputs, Reports, CleanAlert;
    RunIsGood(steps);
    assert Good(RunSteps(START, steps).clients[k], RunSteps(START, steps).core, States(steps));
    var out := RunSteps(START, steps).clients[k].out;
    assert Explained(out, States(steps), t);
    i, r, m, stamp :| Trigger(out, States(steps), t, i, r, m, stamp);
    assert Triggered(Replay(Running(b), out[..t], envs).board.metrics, m, AlertData(out[t]).value);
    n :| FromState(States(steps), n, r, m);
    StateAt(steps, n);
    p := StateIsAccepted(steps, n, r, m);
    AlertReports(r, m, stamp, AlertData(out[t]).value);
  }

  /** What a reader finds in an alert's data, name by name; the value lies beyond the threshold. */
  ghost predicate Reports(data: seq<Field>, r: AlertRule, m: Metric, stamp: string) {
    var value := MetricValue(m, r.metricKey);
    && Get(data, "host") == Some(JStr(m.host)) && Get(data, "timestamp") == Some(JStr(stamp))
    && Get(data, "rule") == Some(JStr(r.rawCommand)) && ParseAlertCommand(r.rawCommand) == Some(r)
    && Get(data, "metric_key") == Some(JStr(r.metricKey)) && Get(data, "display_metric") == Some(JStr(r.displayMetric))
    && Get(data, "metric_value") == Some(JNum(FormatDouble(value)))
    && Get(data, "threshold") == Some(JNum(FormatDouble(r.threshold)))
    && (if r.comparison == '>' then value.Value() > r.threshold.Value() else value.Value() < r.threshold.Value())
    && Get(data, "message") ==
       Some(JStr(r.displayMetric + (" on " + (m.host + (" crossed threshold at " + FormatDouble(value))))))
  }

  lemma AlertReports(r: AlertRule, m: Metric, stamp: string, data: seq<Field>)
    requires Parsed(r) && RuleMatches(r, m) && data == AlertJson(AlertFor(r, m, stamp)).fields
    ensures Reports(data, r, m, stamp)
  {
    hide ParseAlertCommand, FormatDouble, MetricValue, Get, AlertFor, AlertJson, RuleMatches;
    AlertTells(r, m, stamp);
    AlertFieldsByName(AlertFor(r, m, stamp));
  }

  /** However the bytes of a connection are cut into chunks, the lines that come out are exactly the payloads
      sent. */
  lemma StreamIsFramed(steps: seq<Step>, k: nat, chunks: seq<string>)
    requires CleanSteps(steps) && k < |RunSteps(START, steps).clients|
    requires Concat(chunks) == Stream(RunSteps(START, steps).clients[k].out)
    ensures Feed("", chunks) == Framed(RunSteps(START, steps).clients[k].out, "")
  {
    hide RunSteps, CleanSteps, Mirrors, Alive, LagsWithin, AlertsJustified, States, Split, Feed;
    RunIsGood(steps);
    var out := RunSteps(START, steps).clients[k].out;
    assert Good(RunSteps(START, steps).clients[k], RunSteps(START, steps).core, States(steps));
    EmptyLine();
    ChunkingIrrelevant("", chunks);
    assert "" + Concat(chunks) == Concat(chunks);
    SplitStream(out);
  }

  lemma EmptyLine()
    ensures All("", NotNewline)
  {}

  /** The alerts a step of a run publishes. */
  ghost function AlertsAt(steps: seq<Step>, n: nat): seq<AlertEvent>
    requires n < |steps|
  {
    var s := RunSteps(START, steps[..n]);
    var e := StepInput(s, steps[n]);
    if e == [] then [] else Emits(s.core, e[0])
  }

  /** The metric a step of a run accepts, if any. */
  ghost function MetricAt(steps: seq<Step>, n: nat): Option<Metric>
    requires n < |steps|
  {
    var e := StepInput(RunSteps(START, steps[..n]), steps[n]);
    if e == [] || !e[0].Observe? then None else Some(e[0].metric)
  }

  /** A step's input is the one at its place in the run's history. */
  lemma InputAt(steps: seq<Step>, n: nat)
    requires n < |steps|
    ensures var at := |Inputs(START, steps[..n])|;
            var e := StepInput(RunSteps(START, steps[..n]), steps[n]);
            var inputs := Inputs(START, steps);
            && |e| <= 1 && at + |e| <= |inputs| && inputs[..at] == Inputs(START, steps[..n])
            && |Inputs(START, steps[..n + 1])| == at + |e|
            && (e != [] ==> inputs[at] == e[0])
            && AlertsAt(steps, n) == (if e == [] then [] else EmittedAt(inputs, at))
  {
    hide RunSteps, StepInput, Emits, Run;
    var before := Inputs(START, steps[..n]);
    var e := StepInput(RunSteps(START, steps[..n]), steps[n]);
    StepInputShort(RunSteps(START, steps[..n]), steps[n]);
    assert steps[..n + 1][..n] == steps[..n];
    assert Inputs(START, steps[..n + 1]) == before + e;
    InputsPrefix(steps, n + 1);
    InputsPrefix(steps, n);
    CoreOfRun(steps[..n]);
  }

  /** Edge-triggered alerts in every run: a step publishes one alert for a command when the metric it accepts
      is a rising edge of the run's history, and none otherwise. */
  lemma EdgeTriggered(steps: seq<Step>, n: nat, raw: string)
    requires n < |steps|
    ensures var inputs, at := Inputs(START, steps), |Inputs(START, steps[..n])|;
            CountFor(AlertsAt(steps, n), raw) ==
            if MetricAt(steps, n).Some? && at < |inputs| && inputs[at].Observe? && RisingEdge(inputs, at, raw) then 1 else 0
  {
    hide RunSteps, Inputs, StepInput, Run, RisingEdge, Emits, Parsed, AlertsAt, EmittedAt;
    var inputs, at := Inputs(START, steps), |Inputs(START, steps[..n])|;
    InputAt(steps, n);
    InputsParsed(steps);
    if MetricAt(steps, n).Some? {
      AlertsAtRisingEdges(inputs, at, raw);
    } else if at < |inputs| && StepInput(RunSteps(START, steps[..n]), steps[n]) != [] {
      RegistersSilently(inputs, at);
    }
  }

  lemma RegistersSilently(inputs: seq<Input>, n: nat)
    requires n < |inputs| && inputs[n].Register?
    ensures EmittedAt(inputs, n) == []
  {}

  /** The step that brought an input of the history. */
  lemma {:induction false} StepOfInput(steps: seq<Step>, q: nat) returns (n: nat)
    requires q < |Inputs(START, steps)|
    ensures n < |steps| && |Inputs(START, steps[..n])| == q
    ensures StepInput(RunSteps(START, steps[..n]), steps[n]) == [Inputs(START, steps)[q]]
  {
    hide RunSteps, StepInput;
    var last := |steps| - 1;
    var before := Inputs(START, steps[..last]);
    StepInputShort(RunSteps(START, steps[..last]), steps[last]);
    if q < |before| {
      n := StepOfInput(steps[..last], q);
      assert steps[..last][..n] == steps[..n];
    } else {
      n := last;
    }
  }

  /** In every run, between two steps that publish an alert for the same command on metrics of the same host
      lies a step that accepts a metric of that host the command does not match; connections may come and
      go. */
  lemma GapInRuns(steps: seq<Step>, a: nat, b: nat, raw: string) returns (c: nat)
    requires a < b < |steps| && CountFor(AlertsAt(steps, a), raw) > 0 && CountFor(AlertsAt(steps, b), raw) > 0
    requires MetricAt(steps, a).Some? && MetricAt(steps, b).Some?
    requires MetricAt(steps, a).value.host == MetricAt(steps, b).value.host
    ensures a < c < b && MetricAt(steps, c).Some? && MetricAt(steps, c).value.host == MetricAt(steps, a).value.host
    ensures !Matches(raw, MetricAt(steps, c).value)
  {
    hide RunSteps, Inputs, StepInput, Run, Emits, Parsed, AlertsAt, EmittedAt, Matches, CountFor;
    var inputs := Inputs(START, steps);
    var n1, n2 := |Inputs(START, steps[..a])|, |Inputs(START, steps[..b])|;
    InputAt(steps, a);
    InputAt(steps, b);
    InputsParsed(steps);
    InputsGrow(steps, a + 1, b);
    var q := GapBetweenAlerts(inputs, n1, n2, MetricAt(steps, a).value.host, raw);
    c := StepOfInput(steps, q);
    if c <= a {
      InputsGrow(steps, c, a);
    }
    if b <= c {
      InputsGrow(steps, b, c);
    }
  }

  lemma InputsGrow(steps: seq<Step>, n: nat, p: nat)
    requires n <= p <= |steps|
    ensures |Inputs(START, steps[..n])| <= |Inputs(START, steps[..p])|
  {
    hide Inputs;
    InputsPrefix(steps[..p], n);
    assert steps[..p][..n] == steps[..n];
  }

  /** After any run the server's metrics are the last write of every accepted metric. */
  lemma HistoryRefinement(steps: seq<Step>, h: string)
    ensures var latest := RunSteps(START, steps).core.latest;
            && Lookup(latest, h) == LatestOf(Inputs(START, steps), h)
            && |latest| == |Hosts(Inputs(START, steps))|
  {
    hide RunSteps, Inputs, Run;
    CoreOfRun(steps);
    LastWrite(Inputs(START, steps));
  }

  /** In every run, the cache entry of a host and a command is the verdict on the host's stored metric; and
      it is absent exactly when no metric of the host was accepted after the command was registered. */
  lemma CacheCoherence(steps: seq<Step>, h: string, raw: string)
    requires BarFree(raw)
    ensures var core := RunSteps(START, steps).core;
            var inputs := Inputs(START, steps);
            && (Key(h, raw) in core.active ==> h in core.latest && core.active[Key(h, raw)] == Matches(raw, core.latest[h]))
            && (Key(h, raw) !in core.active <==>
                forall p :: 0 <= p < |inputs| && ObservesHost(inputs[p], h) ==> !Registered(RulesOf(inputs[..p]), raw))
  {
    hide RunSteps, Inputs, Run, Parsed, Matches, Key, CacheOf, BarFree, Registered, RulesOf;
    CoreOfRun(steps);
    InputsParsed(steps);
    var inputs := Inputs(START, steps);
    CacheCoherent(inputs, h, raw);
    CacheIsVerdictOnLatest(inputs, h, raw);
    CacheAbsent(inputs, h, raw);
    LastWrite(inputs);
    assert Lookup(History(inputs).latest, h) == LatestOf(inputs, h);
  }

  // ---- the loop, the bytes and the dashboard together -----------------------------------------------------------

  /** From the server's loop to the dashboard's board, over the bytes. The server has gone through any clean
      turns; the payloads it handed to a dashboard's connection went out in any pattern of successful
      partial sends and came in as any chunks. Then `_consume`, started on any board, does not raise and
      leaves the board with the server's rules and its printed metrics, whole when no host is empty. */
  method WatchServer(connector: MonitorConnector, chunks: seq<string>, envs: seq<Env>, ghost listener: int,
                     ghost rounds: seq<Round>, ghost k: nat, ghost patterns: seq<seq<int>>)
    returns (ok: bool)
    requires CleanRounds(rounds)
    requires var s := RunSteps(START, StepsOf(listener, rounds));
             k < |s.clients| && s.clients[k].role == Server.Dashboard && Carries(s.clients[k].out, patterns, chunks)
    modifies connector
    ensures var core := RunSteps(START, StepsOf(listener, rounds)).core;
            && ok && connector.rules == JArr(RulesJson(core.rules)) && Agree(connector.metrics, core.latest)
            && ("" !in core.latest ==> connector.metrics == Printed(core.latest))
  {
    hide RunSteps, StepsOf, Replay, Feed, Split, Carries, Agree, Printed, RulesJson, CleanRounds, Concat, Stream;
    ghost var b := connector.View();
    BoardAfterBytes(listener, rounds, k, patterns, chunks, b, envs);
    ok := connector.Consume(chunks, envs);
  }

  lemma BoardAfterBytes(listener: int, rounds: seq<Round>, k: nat, patterns: seq<seq<int>>, chunks: seq<string>, b: Board,
                        envs: seq<Env>)
    requires CleanRounds(rounds)
    requires var s := RunSteps(START, StepsOf(listener, rounds));
             k < |s.clients| && s.clients[k].role == Server.Dashboard && Carries(s.clients[k].out, patterns, chunks)
    ensures var core := RunSteps(START, StepsOf(listener, rounds)).core;
            var o := Replay(Running(b), Feed("", chunks).lines, envs);
            && o.Running? && o.board.rules == JArr(RulesJson(core.rules)) && Agree(o.board.metrics, core.latest)
            && ("" !in core.latest ==> o.board.metrics == Printed(core.latest))
  {
    hide RunSteps, StepsOf, Replay, Feed, Split, Agree, Printed, RulesJson, CleanRounds, Concat, Stream, WireOf, CleanSteps,
         LastSnapshot, Delivered;
    var steps := StepsOf(listener, rounds);
    CleanTurns(listener, rounds);
    CompleteSends(RunSteps(START, steps).clients[k].out, patterns);
    StreamIsFramed(steps, k, chunks);
    var j, stamp, base := ReplicaIsExact(steps, k, b, envs);
  }
}
