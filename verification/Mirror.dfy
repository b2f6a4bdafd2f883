/** The replication invariant over every run: every dashboard stream, read from any starting
    board, ends at the server's current metrics and rules. */
module Mirror {
  import opened Text
  import opened Decimal
  import opened Json
  import opened Records
  import opened Wire
  import opened Alerting
  import opened Server
  import opened Dashboard
  import opened Replication

  type Latest = map<string, Metric>

  // ---- what a stream of lines amounts to -------------------------------------------------------

  /** The replica agrees with the server on every host that has a name. */
  ghost predicate Agree(metrics: map<string, Json>, latest: Latest) {
    forall h :: h != "" ==> Lookup(metrics, h) == Lookup(Printed(latest), h)
  }

  /** No event of the stream makes the reader raise, wherever it starts. */
  ghost predicate Alive(lines: seq<string>) {
    forall b, envs :: Replay(Running(b), lines, envs).Running?
  }

  /** Read from any board, the metrics end up as `latest`; the entry for the empty host name, which
      metric events never touch, as in `base`. */
  ghost predicate ShowsMetrics(lines: seq<string>, latest: Latest, base: Latest) {
    forall b, envs ::
      var o := Replay(Running(b), lines, envs);
      o.Running? && Agree(o.board.metrics, latest) && Lookup(o.board.metrics, "") == Lookup(Printed(base), "")
  }

  ghost predicate ShowsRules(lines: seq<string>, rules: seq<AlertRule>) {
    forall b, envs ::
      var o := Replay(Running(b), lines, envs);
      o.Running? && o.board.rules == JArr(RulesJson(rules))
  }

  /** The last snapshot of the stream. */
  ghost predicate LastSnapshot(lines: seq<string>, j: nat, stamp: string, base: Latest) {
    && j < |lines| && lines[j] == SnapshotText(stamp, base)
    && (forall t :: j < t < |lines| ==> !IsSnapshot(lines[t]))
  }

  // ---- one more line -----------------------------------------------------------------------------

  lemma AliveSnoc(lines: seq<string>, text: string)
    requires Alive(lines) && (forall b, env :: HandleText(Running(b), text, env).Running?)
    ensures Alive(lines + [text])
  {
    hide HandleText, Replay;
    forall b, envs
      ensures Replay(Running(b), lines + [text], envs).Running?
    {
      ReplaySnoc(Running(b), lines, text, envs);
      var o := Replay(Running(b), lines, envs);
      assert HandleText(Running(o.board), text, EnvAt(envs, |lines|)).Running?;
    }
  }

  lemma MetricsKept(lines: seq<string>, text: string, latest: Latest, base: Latest)
    requires ShowsMetrics(lines, latest, base) && KeepsMetrics(text)
    ensures ShowsMetrics(lines + [text], latest, base)
  {
    hide HandleText, Replay, Agree, Printed;
    forall b, envs
      ensures var o := Replay(Running(b), lines + [text], envs);
              o.Running? && Agree(o.board.metrics, latest) && Lookup(o.board.metrics, "") == Lookup(Printed(base), "")
    {
      ReplaySnoc(Running(b), lines, text, envs);
      var o := Replay(Running(b), lines, envs);
      assert HandleText(Running(o.board), text, EnvAt(envs, |lines|)).Running?;
    }
  }

  lemma AgreeUpdate(metrics: map<string, Json>, latest: Latest, m: Metric)
    requires Agree(metrics, latest)
    ensures var next := if m.host == "" then metrics else metrics[m.host := MetricJson(m)];
            Agree(next, latest[m.host := m]) && Lookup(next, "") == Lookup(metrics, "")
  {
    hide MetricJson;
    var next := if m.host == "" then metrics else metrics[m.host := MetricJson(m)];
    forall h | h != ""
      ensures Lookup(next, h) == Lookup(Printed(latest[m.host := m]), h)
    {
      assert Lookup(metrics, h) == Lookup(Printed(latest), h);
    }
  }

  lemma MetricSet(lines: seq<string>, text: string, latest: Latest, base: Latest, m: Metric)
    requires ShowsMetrics(lines, latest, base) && SetsMetric(text, m)
    ensures ShowsMetrics(lines + [text], latest[m.host := m], base)
  {
    hide HandleText, Replay, MetricJson, Agree, Printed;
    forall b, envs
      ensures var o := Replay(Running(b), lines + [text], envs);
              o.Running? && Agree(o.board.metrics, latest[m.host := m])
              && Lookup(o.board.metrics, "") == Lookup(Printed(base), "")
    {
      ReplaySnoc(Running(b), lines, text, envs);
      var o := Replay(Running(b), lines, envs);
      assert HandleText(Running(o.board), text, EnvAt(envs, |lines|)).Running?;
      AgreeUpdate(o.board.metrics, latest, m);
    }
  }

  lemma MetricsShown(lines: seq<string>, text: string, latest: Latest)
    requires Alive(lines) && ShowsAll(text, latest)
    ensures ShowsMetrics(lines + [text], latest, latest)
  {
    hide HandleText, Replay, Printed;
    forall b, envs
      ensures var o := Replay(Running(b), lines + [text], envs);
              o.Running? && Agree(o.board.metrics, latest) && Lookup(o.board.metrics, "") == Lookup(Printed(latest), "")
    {
      ReplaySnoc(Running(b), lines, text, envs);
      var o := Replay(Running(b), lines, envs);
      assert HandleText(Running(o.board), text, EnvAt(envs, |lines|)).Running?;
    }
  }

  lemma RulesKept(lines: seq<string>, text: string, rules: seq<AlertRule>)
    requires ShowsRules(lines, rules) && KeepsRules(text)
    ensures ShowsRules(lines + [text], rules)
  {
    hide HandleText, Replay, RulesJson;
    forall b, envs
      ensures var o := Replay(Running(b), lines + [text], envs);
              o.Running? && o.board.rules == JArr(RulesJson(rules))
    {
      ReplaySnoc(Running(b), lines, text, envs);
      var o := Replay(Running(b), lines, envs);
      assert HandleText(Running(o.board), text, EnvAt(envs, |lines|)).Running?;
    }
  }

  lemma RulesSet(lines: seq<string>, text: string, rules: seq<AlertRule>)
    requires Alive(lines) && SetsRules(text, rules)
    ensures ShowsRules(lines + [text], rules)
  {
    hide HandleText, Replay, RulesJson;
    forall b, envs
      ensures var o := Replay(Running(b), lines + [text], envs);
              o.Running? && o.board.rules == JArr(RulesJson(rules))
    {
      ReplaySnoc(Running(b), lines, text, envs);
      var o := Replay(Running(b), lines, envs);
      assert HandleText(Running(o.board), text, EnvAt(envs, |lines|)).Running?;
    }
  }

  // ---- lagging readers and alerts -------------------------------------------------------------------

  ghost predicate SeenSnapshot(lines: seq<string>) {
    exists j :: 0 <= j < |lines| && IsSnapshot(lines[j])
  }

  /** Read from any board, the stream shows the n-th state of the past; under the empty host name, an
      earlier one. */
  ghost predicate HoldsState(lines: seq<string>, past: seq<Core>, n: nat, j: nat) {
    && j <= n < |past| && past[j].latest.Keys <= past[n].latest.Keys
    && ShowsMetrics(lines, past[n].latest, past[j].latest)
  }

  ghost predicate Holds(lines: seq<string>, past: seq<Core>, n: nat) {
    exists j :: HoldsState(lines, past, n, j)
  }

  /** The states a reader goes through: at position t, once past a snapshot, it shows state at[t]. */
  ghost predicate LagsAlong(lines: seq<string>, past: seq<Core>, at: seq<nat>) {
    && |at| == |lines| + 1
    && (forall t :: 0 <= t <= |lines| ==> at[t] < |past|)
    && (forall t, u :: 0 <= t <= u <= |lines| ==> at[t] <= at[u])
    && (forall t :: 0 <= t <= |lines| && SeenSnapshot(lines[..t]) ==> Holds(lines[..t], past, at[t]))
  }

  /** A reader anywhere behind, once past a snapshot, holds the metrics of a state of the past, and states
      come in order. */
  ghost predicate LagsWithin(lines: seq<string>, past: seq<Core>) {
    exists at :: LagsAlong(lines, past, at)
  }

  lemma LagSnoc(lines: seq<string>, text: string, past: seq<Core>, at: seq<nat>, n: nat)
    requires LagsAlong(lines, past, at) && at[|lines|] <= n < |past|
    requires SeenSnapshot(lines + [text]) ==> Holds(lines + [text], past, n)
    ensures LagsWithin(lines + [text], past)
  {
    hide SeenSnapshot, Holds;
    var longer, after := lines + [text], at + [n];
    forall t | 0 <= t <= |longer| && SeenSnapshot(longer[..t])
      ensures Holds(longer[..t], past, after[t])
    {
      if t <= |lines| {
        assert longer[..t] == lines[..t];
      } else {
        assert longer[..t] == longer;
      }
    }
    assert LagsAlong(longer, past, after);
  }

  lemma LagGrows(lines: seq<string>, past: seq<Core>, more: seq<Core>)
    requires LagsWithin(lines, past) && past <= more
    ensures LagsWithin(lines, more)
  {
    hide SeenSnapshot, ShowsMetrics;
    var at :| LagsAlong(lines, past, at);
    forall t | 0 <= t <= |lines| && SeenSnapshot(lines[..t])
      ensures Holds(lines[..t], more, at[t])
    {
      assert Holds(lines[..t], past, at[t]);
      var j :| HoldsState(lines[..t], past, at[t], j);
      assert HoldsState(lines[..t], more, at[t], j);
    }
    assert LagsAlong(lines, more, at);
  }

  /** The newest state of the past. */
  ghost predicate Newest(past: seq<Core>, latest: Latest, rules: seq<AlertRule>) {
    past != [] && past[|past| - 1].latest == latest && past[|past| - 1].rules == rules
  }

  ghost predicate InPast(base: Latest, past: seq<Core>) {
    exists j :: 0 <= j < |past| && past[j].latest == base
  }

  /** Showing the newest state keeps the order. */
  lemma LagShown(lines: seq<string>, text: string, past: seq<Core>, latest: Latest, base: Latest)
    requires LagsWithin(lines, past) && past != [] && past[|past| - 1].latest == latest
    requires ShowsMetrics(lines + [text], latest, base) && InPast(base, past) && base.Keys <= latest.Keys
    ensures LagsWithin(lines + [text], past)
  {
    hide ShowsMetrics, SeenSnapshot;
    var at :| LagsAlong(lines, past, at);
    var j :| 0 <= j < |past| && past[j].latest == base;
    assert HoldsState(lines + [text], past, |past| - 1, j);
    LagSnoc(lines, text, past, at, |past| - 1);
  }

  /** A line that leaves the metrics alone leaves the reader at its state. */
  lemma LagKept(lines: seq<string>, text: string, past: seq<Core>)
    requires LagsWithin(lines, past) && KeepsMetrics(text) && !IsSnapshot(text)
    ensures LagsWithin(lines + [text], past)
  {
    hide ShowsMetrics, KeepsMetrics, IsSnapshot, SeenSnapshot;
    var at :| LagsAlong(lines, past, at);
    var n := at[|lines|];
    if SeenSnapshot(lines + [text]) {
      StillSeen(lines, text);
      assert lines[..|lines|] == lines;
      assert Holds(lines, past, n);
      var j: nat :| HoldsState(lines, past, n, j);
      MetricsKept(lines, text, past[n].latest, past[j].latest);
      assert HoldsState(lines + [text], past, n, j);
    }
    LagSnoc(lines, text, past, at, n);
  }

  lemma StillSeen(lines: seq<string>, text: string)
    requires SeenSnapshot(lines + [text]) && !IsSnapshot(text)
    ensures SeenSnapshot(lines)
  {
    hide IsSnapshot;
    var j :| 0 <= j < |lines + [text]| && IsSnapshot((lines + [text])[j]);
    assert IsSnapshot(lines[j]);
  }

  /** The board holds, for the alert's host, a metric whose field named by the alert has the alert's
      value. */
  ghost predicate Justified(metrics: map<string, Json>, data: seq<Field>) {
    match (Get(data, "host"), Get(data, "metric_key"))
    case (Some(JStr(h)), Some(JStr(key))) =>
      h != "" ==> h in metrics && metrics[h].JObj? && Get(metrics[h].fields, key) == Get(data, "metric_value")
                  && Get(data, "metric_value").Some?
    case _ => false
  }

  /** Line i is the event of metric m, and only alerts come after it up to line t. */
  ghost predicate Fired(lines: seq<string>, i: nat, t: nat, m: Metric) {
    i < t <= |lines| && lines[i] == MetricText(m) && forall u :: i < u < t ==> AlertData(lines[u]).Some?
  }

  /** A state of the past has the rule among its rules and the metric as its host's stored one. */
  ghost predicate FromState(past: seq<Core>, n: nat, r: AlertRule, m: Metric) {
    n < |past| && r in past[n].rules && Lookup(past[n].latest, m.host) == Some(m)
  }

  ghost predicate FromPast(past: seq<Core>, r: AlertRule, m: Metric) {
    exists n :: FromState(past, n, r, m)
  }

  /** Line t is the alert of rule r on metric m, both of a state of the past; the event of m is line i, with
      only alerts between; and whatever the board held at first, it holds m for m's host when the alert is
      met. */
  ghost predicate Trigger(lines: seq<string>, past: seq<Core>, t: nat, i: nat, r: AlertRule, m: Metric, stamp: string) {
    && t < |lines| && Fired(lines, i, t, m) && FromPast(past, r, m)
    && lines[t] == AlertText(AlertFor(r, m, stamp)) && RuleMatches(r, m)
    && AlertData(lines[t]) == Some(AlertJson(AlertFor(r, m, stamp)).fields)
    && (forall b, envs :: Triggered(Replay(Running(b), lines[..t], envs).board.metrics, m, AlertData(lines[t]).value))
  }

  ghost predicate Triggered(metrics: map<string, Json>, m: Metric, data: seq<Field>) {
    Justified(metrics, data) && (m.host != "" ==> Lookup(metrics, m.host) == Some(MetricJson(m)))
  }

  ghost predicate Explained(lines: seq<string>, past: seq<Core>, t: nat) {
    exists i, r, m, stamp :: Trigger(lines, past, t, i, r, m, stamp)
  }

  ghost predicate AlertsJustified(lines: seq<string>, past: seq<Core>) {
    forall t :: 0 <= t < |lines| && AlertData(lines[t]).Some? ==> Explained(lines, past, t)
  }

  lemma ExplainedStays(lines: seq<string>, past: seq<Core>, text: string, t: nat)
    requires t < |lines| && Explained(lines, past, t)
    ensures Explained(lines + [text], past, t)
  {
    hide AlertData, Justified, Replay, MetricText, AlertText, AlertFor, RuleMatches, Triggered, FromPast;
    var i, r, m, stamp :| Trigger(lines, past, t, i, r, m, stamp);
    assert (lines + [text])[..t] == lines[..t];
    assert Trigger(lines + [text], past, t, i, r, m, stamp);
  }

  lemma JustifiedSnoc(lines: seq<string>, past: seq<Core>, text: string)
    requires AlertsJustified(lines, past)
    requires AlertData(text).Some? ==> Explained(lines + [text], past, |lines|)
    ensures AlertsJustified(lines + [text], past)
  {
    hide AlertData, Explained;
    forall t | 0 <= t < |lines + [text]| && AlertData((lines + [text])[t]).Some?
      ensures Explained(lines + [text], past, t)
    {
      if t < |lines| {
        ExplainedStays(lines, past, text, t);
      }
    }
  }

  lemma JustifiedGrows(lines: seq<string>, past: seq<Core>, more: seq<Core>)
    requires AlertsJustified(lines, past) && past <= more
    ensures AlertsJustified(lines, more)
  {
    hide AlertData, Justified, Replay, MetricText, AlertText, AlertFor, RuleMatches, Triggered, Fired;
    forall t | 0 <= t < |lines| && AlertData(lines[t]).Some?
      ensures Explained(lines, more, t)
    {
      assert Explained(lines, past, t);
      var i, r, m, stamp :| Trigger(lines, past, t, i, r, m, stamp);
      var n :| FromState(past, n, r, m);
      assert FromState(more, n, r, m);
      assert Trigger(lines, more, t, i, r, m, stamp);
    }
  }

  lemma AlertDataOf(a: AlertEvent)
    requires CleanAlert(a)
    ensures AlertData(AlertText(a)) == Some(AlertSource(a) + AlertFinding(a))
  {
    hide Get, CleanAlert, Loads, Shaped, CleanJson, Render, AlertSource, AlertFinding;
    AlertEventKind(a);
    EventHandled(AlertText(a), AlertEventJson(a), Board(false, None, map[], [], [], JObj([]), JObj([])), QUIET);
  }

  lemma JustifiedBy(metrics: map<string, Json>, latest: Latest, r: AlertRule, m: Metric, stamp: string)
    requires Agree(metrics, latest) && m.host in latest && latest[m.host] == m && RealMetricKey(r.metricKey)
    ensures var a := AlertFor(r, m, stamp);
            Triggered(metrics, m, AlertSource(a) + AlertFinding(a))
  {
    hide Get, FormatDouble, MetricFields, RealMetricKey, AlertSource, AlertFinding, MetricValue;
    var a := AlertFor(r, m, stamp);
    AlertFieldsByName(a);
    MetricValueField(m, r.metricKey);
    assert m.host != "" ==> Lookup(metrics, m.host) == Lookup(Printed(latest), m.host) == Some(MetricJson(m));
  }

  /** After the metric that triggered it, an alert is explained on every board. */
  lemma AlertIsJustified(lines: seq<string>, past: seq<Core>, latest: Latest, base: Latest, i: nat, r: AlertRule, m: Metric,
                         stamp: string)
    requires FromPast(past, r, m)
    requires ShowsMetrics(lines, latest, base) && m.host in latest && latest[m.host] == m && RealMetricKey(r.metricKey)
    requires CleanAlert(AlertFor(r, m, stamp)) && RuleMatches(r, m) && Fired(lines, i, |lines|, m)
    ensures var text := AlertText(AlertFor(r, m, stamp));
            && AlertData(text).Some? && Explained(lines + [text], past, |lines|)
            && Fired(lines + [text], i, |lines| + 1, m)
  {
    hide Replay, Justified, CleanAlert, AlertData, AlertText, AlertFor, AlertSource, AlertFinding, RealMetricKey, Agree,
         Printed, RuleMatches, Triggered, MetricText, FromPast;
    AlertDataOf(AlertFor(r, m, stamp));
    var text := AlertText(AlertFor(r, m, stamp));
    var longer := lines + [text];
    assert longer[..|lines|] == lines && longer[|lines|] == text;
    forall b, envs
      ensures Triggered(Replay(Running(b), longer[..|lines|], envs).board.metrics, m, AlertData(text).value)
    {
      JustifiedBy(Replay(Running(b), lines, envs).board.metrics, latest, r, m, stamp);
    }
    assert Trigger(longer, past, |lines|, i, r, m, stamp);
  }
}
