/** Whole runs of server and dashboards: replication, lagging readers, justified alerts. */
module Consistency {
  import opened Text
  import opened Json
  import opened Records
  import opened Wire
  import opened Framing
  import opened Alerting
  import opened Server
  import opened Hygiene
  import opened Dashboard
  import opened Replication
  import opened Mirror

  /** What holds of every connection's stream, dashboard or not. */
  ghost predicate Sound(lines: seq<string>, past: seq<Core>) {
    Alive(lines) && OneLineEach(lines) && LagsWithin(lines, past) && AlertsJustified(lines, past)
  }

  ghost predicate MirrorsFrom(lines: seq<string>, latest: Latest, rules: seq<AlertRule>, j: nat, stamp: string, base: Latest, past: seq<Core>) {
    && LastSnapshot(lines, j, stamp, base) && base.Keys <= latest.Keys && InPast(base, past)
    && ShowsMetrics(lines, latest, base) && ShowsRules(lines, rules)
  }

  /** What holds of the stream of a connection in the dashboard role. */
  ghost predicate Mirrors(lines: seq<string>, latest: Latest, rules: seq<AlertRule>, past: seq<Core>) {
    exists j, stamp, base :: MirrorsFrom(lines, latest, rules, j, stamp, base, past)
  }

  // ---- appending one payload -------------------------------------------------------------------

  lemma OneLineSnoc(lines: seq<string>, text: string)
    requires OneLineEach(lines) && All(text, NotNewline)
    ensures OneLineEach(lines + [text])
  {
    hide All;
  }

  lemma SnapshotStays(lines: seq<string>, text: string, j: nat, stamp: string, base: Latest)
    requires LastSnapshot(lines, j, stamp, base) && !IsSnapshot(text)
    ensures LastSnapshot(lines + [text], j, stamp, base)
  {
    hide IsSnapshot, SnapshotText;
  }

  lemma RunsFromKept(text: string)
    requires KeepsMetrics(text)
    ensures forall b, env :: HandleText(Running(b), text, env).Running?
  {
    hide HandleText;
  }

  lemma RunsFromRules(text: string)
    requires KeepsRules(text)
    ensures forall b, env :: HandleText(Running(b), text, env).Running?
  {
    hide HandleText;
  }

  /** A payload that leaves the metrics alone and is no alert keeps a stream sound. */
  lemma SoundKept(lines: seq<string>, text: string, past: seq<Core>)
    requires Sound(lines, past) && KeepsMetrics(text) && !IsSnapshot(text)
    requires All(text, NotNewline) && AlertData(text) == None
    ensures Sound(lines + [text], past)
  {
    hide Alive, OneLineEach, LagsWithin, AlertsJustified, KeepsMetrics, IsSnapshot, AlertData, All;
    RunsFromKept(text);
    AliveSnoc(lines, text);
    OneLineSnoc(lines, text);
    LagKept(lines, text, past);
    JustifiedSnoc(lines, past, text);
  }

  /** A payload after which the stream shows a server state keeps it sound. */
  lemma SoundShown(lines: seq<string>, text: string, past: seq<Core>, latest: Latest, base: Latest)
    requires Sound(lines, past) && KeepsRules(text) && All(text, NotNewline) && AlertData(text) == None
    requires ShowsMetrics(lines + [text], latest, base) && past != [] && past[|past| - 1].latest == latest
    requires InPast(base, past) && base.Keys <= latest.Keys
    ensures Sound(lines + [text], past)
  {
    hide Alive, OneLineEach, LagsWithin, AlertsJustified, KeepsRules, AlertData, All, ShowsMetrics, InPast;
    RunsFromRules(text);
    AliveSnoc(lines, text);
    OneLineSnoc(lines, text);
    LagShown(lines, text, past, latest, base);
    JustifiedSnoc(lines, past, text);
  }

  lemma QuietKeeps(lines: seq<string>, text: string, past: seq<Core>, latest: Latest, rules: seq<AlertRule>)
    requires Quiet(text) && AlertData(text) == None
    ensures Sound(lines, past) ==> Sound(lines + [text], past)
    ensures Mirrors(lines, latest, rules, past) ==> Mirrors(lines + [text], latest, rules, past)
  {
    hide Sound, KeepsMetrics, KeepsRules, IsSnapshot, AlertData, All, ShowsMetrics, ShowsRules, LastSnapshot;
    if Sound(lines, past) {
      SoundKept(lines, text, past);
    }
    if Mirrors(lines, latest, rules, past) {
      MirrorsKept(lines, text, latest, rules, past);
    }
  }

  lemma MirrorsKept(lines: seq<string>, text: string, latest: Latest, rules: seq<AlertRule>, past: seq<Core>)
    requires Quiet(text) && Mirrors(lines, latest, rules, past)
    ensures Mirrors(lines + [text], latest, rules, past)
  {
    hide KeepsMetrics, KeepsRules, IsSnapshot, All, ShowsMetrics, ShowsRules, LastSnapshot;
    var j, stamp, base :| MirrorsFrom(lines, latest, rules, j, stamp, base, past);
    SnapshotStays(lines, text, j, stamp, base);
    MetricsKept(lines, text, latest, base);
    RulesKept(lines, text, rules);
    assert MirrorsFrom(lines + [text], latest, rules, j, stamp, base, past);
  }

  // ---- publishing a metric and its alerts ----------------------------------------------------------

  lemma MetricKeeps(lines: seq<string>, m: Metric, past: seq<Core>, latest: Latest, rules: seq<AlertRule>)
    requires CleanMetric(m) && Sound(lines, past) && Mirrors(lines, latest, rules, past)
    requires Newest(past, latest[m.host := m], rules)
    ensures Sound(lines + [MetricText(m)], past)
    ensures Mirrors(lines + [MetricText(m)], latest[m.host := m], rules, past)
  {
    hide Sound, CleanMetric, SetsMetric, KeepsRules, IsSnapshot, All, ShowsMetrics, ShowsRules, LastSnapshot, MetricText, AlertData;
    var text := MetricText(m);
    MetricEffect(m);
    var j, stamp, base :| MirrorsFrom(lines, latest, rules, j, stamp, base, past);
    SnapshotStays(lines, text, j, stamp, base);
    MetricSet(lines, text, latest, base, m);
    RulesKept(lines, text, rules);
    SoundShown(lines, text, past, latest[m.host := m], base);
    assert MirrorsFrom(lines + [text], latest[m.host := m], rules, j, stamp, base, past);
  }

  lemma AlertKeeps(lines: seq<string>, i: nat, r: AlertRule, m: Metric, stamp: string, past: seq<Core>, latest: Latest,
                   rules: seq<AlertRule>)
    requires CleanAlert(AlertFor(r, m, stamp)) && RealMetricKey(r.metricKey)
    requires m.host in latest && latest[m.host] == m && RuleMatches(r, m) && Fired(lines, i, |lines|, m)
    requires FromPast(past, r, m)
    requires Sound(lines, past) && Mirrors(lines, latest, rules, past)
    ensures var text := AlertText(AlertFor(r, m, stamp));
            && Sound(lines + [text], past) && Mirrors(lines + [text], latest, rules, past)
            && Fired(lines + [text], i, |lines| + 1, m)
  {
    hide CleanAlert, RealMetricKey, AlertText, AlertFor, AlertEventJson, KeepsMetrics, KeepsRules, IsSnapshot, All,
         ShowsMetrics, ShowsRules, LastSnapshot, AlertData, Alive, OneLineEach, LagsWithin, AlertsJustified, Explained,
         EventOf, Replay, Fired, RuleMatches, FromPast, InPast;
    var text := AlertText(AlertFor(r, m, stamp));
    AlertEventKind(AlertFor(r, m, stamp));
    QuietEvent(text, AlertEventJson(AlertFor(r, m, stamp)), "alert");
    var j, at, base :| MirrorsFrom(lines, latest, rules, j, at, base, past);
    AlertIsJustified(lines, past, latest, base, i, r, m, stamp);
    RunsFromKept(text);
    AliveSnoc(lines, text);
    OneLineSnoc(lines, text);
    LagKept(lines, text, past);
    JustifiedSnoc(lines, past, text);
    MirrorsKept(lines, text, latest, rules, past);
  }

  ghost predicate RealRules(rules: seq<AlertRule>) {
    forall i :: 0 <= i < |rules| ==> RealMetricKey(rules[i].metricKey)
  }

  lemma {:induction false} AlertsKeep(lines: seq<string>, i: nat, core: Core, m: Metric, stamps: seq<string>, n: nat,
                                      past: seq<Core>)
    requires CleanCore(core) && CleanMetric(m) && CleanClock(stamps) && RealRules(core.rules)
    requires n <= |Emits(core, Observe(m, stamps))| && Newest(past, core.latest[m.host := m], core.rules)
    requires Sound(lines, past) && Mirrors(lines, core.latest[m.host := m], core.rules, past) && Fired(lines, i, |lines|, m)
    ensures var more := AlertTexts(Emits(core, Observe(m, stamps)))[..n];
            && Sound(lines + more, past) && Mirrors(lines + more, core.latest[m.host := m], core.rules, past)
            && Fired(lines + more, i, |lines + more|, m)
  {
    hide Tells, Fired, CleanCore, CleanMetric, CleanClock, Sound, Mirrors, Evaluate, AlertText, RuleMatches, AlertFor, CleanAlert;
    var alerts := Emits(core, Observe(m, stamps));
    var texts := AlertTexts(alerts);
    if n == 0 {
      assert lines + texts[..0] == lines;
    } else {
      AlertsKeep(lines, i, core, m, stamps, n - 1, past);
      EvaluateAlerts(core.rules, m, core.active, stamps, n - 1);
      var k :| 0 <= k < |core.rules| && RuleMatches(core.rules[k], m)
               && alerts[n - 1] == AlertFor(core.rules[k], m, Reading(stamps, n - 1));
      CleanEmission(core, m, stamps, n - 1);
      assert FromState(past, |past| - 1, core.rules[k], m);
      AlertKeeps(lines + texts[..n - 1], i, core.rules[k], m, Reading(stamps, n - 1), past,
                 core.latest[m.host := m], core.rules);
      assert lines + texts[..n] == lines + texts[..n - 1] + [texts[n - 1]];
    }
  }

  lemma ReportKeeps(lines: seq<string>, core: Core, m: Metric, clock: seq<string>, past: seq<Core>)
    requires CleanCore(core) && CleanMetric(m) && CleanClock(clock) && RealRules(core.rules)
    requires Sound(lines, past) && Mirrors(lines, core.latest, core.rules, past)
    requires Newest(past, core.latest[m.host := m], core.rules)
    ensures var more := Published(core, Report(m), clock);
            Sound(lines + more, past) && Mirrors(lines + more, core.latest[m.host := m], core.rules, past)
  {
    hide CleanCore, CleanMetric, Sound, Mirrors, Evaluate, AlertTexts, MetricText, RealRules;
    CleanReading(clock, 0);
    MetricKeeps(lines, m, past, core.latest, core.rules);
    var alerts := Emits(core, Observe(m, Later(clock)));
    assert Fired(lines + [MetricText(m)], |lines|, |lines| + 1, m);
    AlertsKeep(lines + [MetricText(m)], |lines|, core, m, Later(clock), |alerts|, past);
    AlertTextCount(alerts);
    assert AlertTexts(alerts)[..|alerts|] == AlertTexts(alerts);
    assert lines + ([MetricText(m)] + AlertTexts(alerts)) == lines + [MetricText(m)] + AlertTexts(alerts);
  }

  lemma AlertTextCount(alerts: seq<AlertEvent>)
    ensures |AlertTexts(alerts)| == |alerts|
  {}

  // ---- rules, chat and replies ----------------------------------------------------------------------

  lemma RulesKeep(lines: seq<string>, rules: seq<AlertRule>, past: seq<Core>, latest: Latest, earlier: seq<AlertRule>)
    requires forall i :: 0 <= i < |rules| ==> CleanRule(rules[i])
    requires Sound(lines, past)
    ensures Sound(lines + [RulesText(rules)], past)
    ensures Mirrors(lines, latest, earlier, past) ==> Mirrors(lines + [RulesText(rules)], latest, rules, past)
  {
    hide CleanRule, RulesText, KeepsMetrics, SetsRules, IsSnapshot, All, ShowsMetrics, ShowsRules, LastSnapshot, AlertData,
         Alive, OneLineEach, LagsWithin, AlertsJustified;
    var text := RulesText(rules);
    RulesEffect(rules);
    SoundKept(lines, text, past);
    if Mirrors(lines, latest, earlier, past) {
      var j, stamp, base :| MirrorsFrom(lines, latest, earlier, j, stamp, base, past);
      SnapshotStays(lines, text, j, stamp, base);
      MetricsKept(lines, text, latest, base);
      RulesSet(lines, text, rules);
      assert MirrorsFrom(lines + [text], latest, rules, j, stamp, base, past);
    }
  }

  lemma ChatKeeps(lines: seq<string>, c: ChatMessage, past: seq<Core>, latest: Latest, rules: seq<AlertRule>)
    requires Clean(c.sender) && Clean(c.text) && Clean(c.timestamp)
    ensures Sound(lines, past) ==> Sound(lines + [ChatText(c)], past)
    ensures Mirrors(lines, latest, rules, past) ==> Mirrors(lines + [ChatText(c)], latest, rules, past)
  {
    hide Clean, Sound, Mirrors, Quiet, ChatText, ChatEventJson, EventOf, AlertData;
    ChatEvent(c);
    QuietEvent(ChatText(c), ChatEventJson(c), "chat");
    QuietKeeps(lines, ChatText(c), past, latest, rules);
  }

  lemma NoticeKeeps(lines: seq<string>, message: string, past: seq<Core>, latest: Latest, rules: seq<AlertRule>)
    requires Clean(message)
    ensures Sound(lines, past) ==> Sound(lines + [AckText(message)], past) && Sound(lines + [ErrorText(message)], past)
    ensures Mirrors(lines, latest, rules, past) ==>
              Mirrors(lines + [AckText(message)], latest, rules, past) && Mirrors(lines + [ErrorText(message)], latest, rules, past)
  {
    hide Clean, Sound, Mirrors, Quiet, AckText, ErrorText, AckEventJson, ErrorEventJson, EventOf, AlertData;
    NoticeEvent(message);
    QuietEvent(AckText(message), AckEventJson(message), "ack");
    QuietEvent(ErrorText(message), ErrorEventJson(message), "error");
    QuietKeeps(lines, AckText(message), past, latest, rules);
    QuietKeeps(lines, ErrorText(message), past, latest, rules);
  }

  /** Registration as a dashboard brings any live stream up to date. */
  lemma GreetingMirrors(lines: seq<string>, declared: string, core: Core, clock: seq<string>, past: seq<Core>)
    requires CleanCore(core) && Keyed(core.latest) && CleanClock(clock) && Clean(declared)
    requires Sound(lines, past) && Newest(past, core.latest, core.rules)
    ensures var more := Greeting(Server.Dashboard, declared, core, clock);
            Sound(lines + more, past) && Mirrors(lines + more, core.latest, core.rules, past)
  {
    hide Clean, CleanMetric, CleanRule, Sound, ShowsMetrics, ShowsRules, IsSnapshot, AckText, SnapshotText, RulesText,
         KeepsRules, ShowsAll, KeepsMetrics, SetsRules, All, AlertData, Alive, Keyed;
    GreetingClean(declared);
    CleanReading(clock, 0);
    var ack, snap := AckText("registered as " + declared), SnapshotText(Reading(clock, 0), core.latest);
    var one := lines + [ack];
    NoticeKeeps(lines, "registered as " + declared, past, core.latest, core.rules);
    SnapshotEffect(Reading(clock, 0), core.latest);
    SoundIsAlive(one, past);
    MetricsShown(one, snap, core.latest);
    SoundShown(one, snap, past, core.latest, core.latest);
    var two := one + [snap];
    RulesEffect(core.rules);
    RulesKeep(two, core.rules, past, core.latest, core.rules);
    MetricsKept(two, RulesText(core.rules), core.latest, core.latest);
    SoundIsAlive(two, past);
    RulesSet(two, RulesText(core.rules), core.rules);
    var three := two + [RulesText(core.rules)];
    assert LastSnapshot(three, |one|, Reading(clock, 0), core.latest);
    assert MirrorsFrom(three, core.latest, core.rules, |one|, Reading(clock, 0), core.latest, past);
    assert lines + Greeting(Server.Dashboard, declared, core, clock) == three;
  }

  lemma SoundIsAlive(lines: seq<string>, past: seq<Core>)
    requires Sound(lines, past)
    ensures Alive(lines)
  {
    hide Alive, OneLineEach, LagsWithin, AlertsJustified;
  }

  lemma GreetingClean(declared: string)
    requires Clean(declared)
    ensures Clean("registered as " + declared)
  {
    CleanConcat("registered as ", declared);
  }
}
