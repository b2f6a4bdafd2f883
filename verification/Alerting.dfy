/** The alerting core of the server: latest metrics, rules and the dedupe cache, as a state
    machine over accepted metrics and registered rules. */
module Alerting {
  import opened Text
  import opened Decimal
  import opened Records
  import opened Command

  /** The `k`-th reading of the clock while one line is handled. */
  function Reading(clock: seq<string>, k: nat): string {
    if k < |clock| then clock[k] else ""
  }

  datatype Core = Core(latest: map<string, Metric>, rules: seq<AlertRule>, active: map<string, bool>)

  const EMPTY := Core(map[], [], map[])

  function Key(host: string, raw: string): string {
    host + ("|" + raw)
  }

  function Lookup<V>(m: map<string, V>, key: string): Option<V> {
    if key in m then Some(m[key]) else None
  }

  predicate Was(active: map<string, bool>, key: string) {
    key in active && active[key]
  }

  function AlertFor(rule: AlertRule, m: Metric, stamp: string): AlertEvent {
    var value := MetricValue(m, rule.metricKey);
    AlertEvent(m.host, stamp, rule.metricKey, rule.displayMetric, value, rule.threshold, rule.rawCommand,
               rule.displayMetric + " on " + m.host + " crossed threshold at " + FormatDouble(value))
  }

  datatype Evaluation = Evaluation(active: map<string, bool>, alerts: seq<AlertEvent>)

  /** `evaluate_rules`, rule by rule; the `k`-th alert carries the `k`-th clock reading. */
  function Evaluate(rules: seq<AlertRule>, m: Metric, active: map<string, bool>, stamps: seq<string>): Evaluation {
    if rules == [] then Evaluation(active, []) else
      var before := Evaluate(rules[..|rules| - 1], m, active, stamps);
      EvaluateOne(rules[|rules| - 1], m, before, stamps)
  }

  function EvaluateOne(rule: AlertRule, m: Metric, before: Evaluation, stamps: seq<string>): Evaluation {
    var key := Key(m.host, rule.rawCommand);
    var matched := RuleMatches(rule, m);
    Evaluation(before.active[key := matched],
               if matched && !Was(before.active, key)
               then before.alerts + [AlertFor(rule, m, Reading(stamps, |before.alerts|))]
               else before.alerts)
  }

  datatype Input = Observe(metric: Metric, stamps: seq<string>) | Register(rule: AlertRule)

  function Apply(c: Core, e: Input): Core {
    match e
    case Observe(m, stamps) => Core(c.latest[m.host := m], c.rules, Evaluate(c.rules, m, c.active, stamps).active)
    case Register(r) => c.(rules := c.rules + [r])
  }

  /** The alerts one input makes the server broadcast. */
  function Emits(c: Core, e: Input): seq<AlertEvent> {
    match e
    case Observe(m, stamps) => Evaluate(c.rules, m, c.active, stamps).alerts
    case Register(r) => []
  }

  function Run(c: Core, inputs: seq<Input>): Core {
    if inputs == [] then c else Apply(Run(c, inputs[..|inputs| - 1]), inputs[|inputs| - 1])
  }

  function History(inputs: seq<Input>): Core {
    Run(EMPTY, inputs)
  }

  // ---- rules are determined by their raw command -------------------------------------------

  /** A rule as `parse_alert_command` builds it. */
  ghost predicate Parsed(r: AlertRule) {
    ParseAlertCommand(r.rawCommand) == Some(r)
  }

  ghost predicate ParsedRules(rules: seq<AlertRule>) {
    forall i :: 0 <= i < |rules| ==> Parsed(rules[i])
  }

  ghost predicate ParsedInputs(inputs: seq<Input>) {
    forall i :: 0 <= i < |inputs| && inputs[i].Register? ==> Parsed(inputs[i].rule)
  }

  /** Every rule the server registers is one. */
  lemma RegisteredIsParsed(text: string)
    requires ParseAlertCommand(text).Some?
    ensures Parsed(ParseAlertCommand(text).value)
  {
    hide ParseAlertCommand;
    ParseTrimInvariant(text);
  }

  ghost predicate BarFree(raw: string) {
    All(raw, NotBar)
  }

  lemma ParsedBarFree(r: AlertRule)
    requires Parsed(r)
    ensures BarFree(r.rawCommand)
  {
    hide ParseAlertCommand;
    AcceptedHasNoBar(r.rawCommand);
  }

  /** Dedupe keys do not collide: commands have no '|', so the last one in the key is the
      separator, whatever the host contains. */
  lemma KeyInjective(h1: string, raw1: string, h2: string, raw2: string)
    requires BarFree(raw1) && BarFree(raw2)
    ensures Key(h1, raw1) == Key(h2, raw2) <==> h1 == h2 && raw1 == raw2
  {
    var k1, k2 := Key(h1, raw1), Key(h2, raw2);
    if k1 == k2 {
      assert k1[|h1|] == '|' && k2[|h2|] == '|';
      assert forall i :: 0 <= i < |raw1| ==> k1[|h1| + 1 + i] == raw1[i];
      assert forall i :: 0 <= i < |raw2| ==> k2[|h2| + 1 + i] == raw2[i];
      BarPosition(h1, raw1, |h2|);
      BarPosition(h2, raw2, |h1|);
      assert k1[..|h1|] == h1 && k2[..|h1|] == h2;
      assert k1[|h1| + 1..] == raw1 && k2[|h1| + 1..] == raw2;
    }
  }

  lemma BarPosition(h: string, raw: string, i: nat)
    requires BarFree(raw) && i < |Key(h, raw)| && Key(h, raw)[i] == '|'
    ensures i <= |h|
  {
    assert forall j :: 0 <= j < |raw| ==> raw[j] == Key(h, raw)[|h| + 1 + j];
    assert forall j :: |h| < j < |Key(h, raw)| ==> Key(h, raw)[j] == raw[j - |h| - 1];
  }

  /** With a bar in a command two pairs would share a key; the grammar is what prevents it. */
  lemma BarsWouldCollide()
    ensures Key("a|b", "c") == Key("a", "b|c")
  {
    assert Key("a|b", "c") == "a|b|c" == Key("a", "b|c");
  }

  ghost predicate Registered(rules: seq<AlertRule>, raw: string) {
    exists i :: 0 <= i < |rules| && rules[i].rawCommand == raw
  }

  ghost predicate Matches(raw: string, m: Metric) {
    var r := ParseAlertCommand(raw);
    r.Some? && RuleMatches(r.value, m)
  }

  lemma MatchesOf(r: AlertRule, m: Metric)
    requires Parsed(r)
    ensures Matches(r.rawCommand, m) <==> RuleMatches(r, m)
  {
    hide ParseAlertCommand, RuleMatches;
  }

  // ---- what one evaluation does to the cache and which alerts it emits ----------------------

  /** The cache entries one metric sets. */
  ghost function Verdict(rules: seq<AlertRule>, m: Metric, active: map<string, bool>, raw: string): Option<bool> {
    if Registered(rules, raw) then Some(Matches(raw, m)) else Lookup(active, Key(m.host, raw))
  }

  lemma RegisteredSnoc(rules: seq<AlertRule>, raw: string)
    requires rules != []
    ensures Registered(rules, raw)
            <==> Registered(rules[..|rules| - 1], raw) || rules[|rules| - 1].rawCommand == raw
  {
    var init := rules[..|rules| - 1];
    if Registered(rules, raw) {
      var i :| 0 <= i < |rules| && rules[i].rawCommand == raw;
      assert i < |rules| - 1 ==> init[i].rawCommand == raw;
    }
    if Registered(init, raw) {
      var i :| 0 <= i < |init| && init[i].rawCommand == raw;
      assert rules[i].rawCommand == raw;
    }
  }

  lemma ParsedInit(rules: seq<AlertRule>)
    requires ParsedRules(rules) && rules != []
    ensures ParsedRules(rules[..|rules| - 1]) && Parsed(rules[|rules| - 1])
  {}

  /** After a metric, every registered command's entry for that host is the verdict on that
      metric, and the entries of other hosts and commands are untouched. */
  lemma {:induction false} EvaluateCache(rules: seq<AlertRule>, m: Metric, active: map<string, bool>,
                                         stamps: seq<string>, h: string, raw: string)
    requires ParsedRules(rules) && BarFree(raw)
    ensures Lookup(Evaluate(rules, m, active, stamps).active, Key(h, raw)) ==
            if h == m.host then Verdict(rules, m, active, raw) else Lookup(active, Key(h, raw))
  {
    hide Matches, RuleMatches, Key, AlertFor, BarFree, Parsed;
    if rules != [] {
      var last := rules[|rules| - 1];
      ParsedInit(rules);
      EvaluateCache(rules[..|rules| - 1], m, active, stamps, h, raw);
      RegisteredSnoc(rules, raw);
      ParsedBarFree(last);
      KeyInjective(h, raw, m.host, last.rawCommand);
      MatchesOf(last, m);
    }
  }

  function CountFor(alerts: seq<AlertEvent>, raw: string): nat {
    if alerts == [] then 0 else
      CountFor(alerts[..|alerts| - 1], raw) + if alerts[|alerts| - 1].rule == raw then 1 else 0
  }

  ghost predicate Fires(rules: seq<AlertRule>, m: Metric, active: map<string, bool>, raw: string) {
    Registered(rules, raw) && Matches(raw, m) && !Was(active, Key(m.host, raw))
  }

  lemma CountSnoc(alerts: seq<AlertEvent>, a: AlertEvent, raw: string)
    ensures CountFor(alerts + [a], raw) == CountFor(alerts, raw) + if a.rule == raw then 1 else 0
  {
    assert (alerts + [a])[..|alerts|] == alerts;
  }

  /** One metric emits one alert for a command that is registered, matches and did not match
      before, and none for any other, however often the command was registered. */
  lemma {:induction false} EvaluateCounts(rules: seq<AlertRule>, m: Metric, active: map<string, bool>,
                                          stamps: seq<string>, raw: string)
    requires ParsedRules(rules) && BarFree(raw)
    ensures CountFor(Evaluate(rules, m, active, stamps).alerts, raw) == if Fires(rules, m, active, raw) then 1 else 0
  {
    hide Matches, RuleMatches, Key, BarFree, Parsed, AlertFor, Registered, ParsedRules, CountFor;
    if rules != [] {
      var init, last := rules[..|rules| - 1], rules[|rules| - 1];
      var before := Evaluate(init, m, active, stamps);
      ParsedInit(rules);
      EvaluateCounts(init, m, active, stamps, raw);
      RegisteredSnoc(rules, raw);
      MatchesOf(last, m);
      var alert := AlertFor(last, m, Reading(stamps, |before.alerts|));
      AlertNamesRule(last, m, Reading(stamps, |before.alerts|));
      CountSnoc(before.alerts, alert, raw);
      EvaluateCache(init, m, active, stamps, m.host, raw);
    } else {
      NothingFires(m, active, raw);
    }
  }

  /** What an alert says, part by part: rule and metric it is about, the value measured, the threshold it lies
      beyond, and the sentence shown to people. */
  ghost predicate Tells(a: AlertEvent, r: AlertRule, m: Metric, stamp: string) {
    && a.rule == r.rawCommand && a.metricKey == r.metricKey && a.displayMetric == r.displayMetric
    && a.threshold == r.threshold
    && a.host == m.host && a.timestamp == stamp && a.metricValue == MetricValue(m, r.metricKey)
    && (if r.comparison == '>' then a.metricValue.Value() > r.threshold.Value() else a.metricValue.Value() < r.threshold.Value())
    && a.message == r.displayMetric + (" on " + (m.host + (" crossed threshold at " + FormatDouble(a.metricValue))))
  }

  lemma AlertTells(r: AlertRule, m: Metric, stamp: string)
    requires RuleMatches(r, m)
    ensures Tells(AlertFor(r, m, stamp), r, m, stamp)
  {
    hide FormatDouble, MetricValue;
    var value := FormatDouble(MetricValue(m, r.metricKey));
    assert r.displayMetric + " on " + m.host + " crossed threshold at " + value
        == r.displayMetric + (" on " + (m.host + (" crossed threshold at " + value)));
  }

  lemma AlertNamesRule(rule: AlertRule, m: Metric, stamp: string)
    ensures AlertFor(rule, m, stamp).rule == rule.rawCommand
  {}

  lemma NothingFires(m: Metric, active: map<string, bool>, raw: string)
    ensures CountFor([], raw) == 0 && !Fires([], m, active, raw)
  {}

  /** Every alert is the report of a matching rule on this metric, and tells it. */
  lemma {:induction false} EvaluateAlerts(rules: seq<AlertRule>, m: Metric, active: map<string, bool>,
                                          stamps: seq<string>, i: nat)
    requires i < |Evaluate(rules, m, active, stamps).alerts|
    ensures exists k :: 0 <= k < |rules| && RuleMatches(rules[k], m)
              && Evaluate(rules, m, active, stamps).alerts[i] == AlertFor(rules[k], m, Reading(stamps, i))
              && Tells(Evaluate(rules, m, active, stamps).alerts[i], rules[k], m, Reading(stamps, i))
  {
    hide RuleMatches, Key, AlertFor, Tells;
    var init := rules[..|rules| - 1];
    var before := Evaluate(init, m, active, stamps);
    if i < |before.alerts| {
      EvaluateAlerts(init, m, active, stamps, i);
      var k :| 0 <= k < |init| && RuleMatches(init[k], m)
               && before.alerts[i] == AlertFor(init[k], m, Reading(stamps, i))
               && Tells(before.alerts[i], init[k], m, Reading(stamps, i));
      assert rules[k] == init[k];
    } else {
      AlertTells(rules[|rules| - 1], m, Reading(stamps, i));
    }
  }

  /** The alerts of a metric depend on the cache only through that host's entries. */
  lemma {:induction false} EvaluateDepends(rules: seq<AlertRule>, m: Metric, a: map<string, bool>,
                                           b: map<string, bool>, stamps: seq<string>)
    requires ParsedRules(rules)
    requires forall raw :: BarFree(raw) ==> Lookup(a, Key(m.host, raw)) == Lookup(b, Key(m.host, raw))
    ensures Evaluate(rules, m, a, stamps).alerts == Evaluate(rules, m, b, stamps).alerts
  {
    hide Matches, RuleMatches, Key, AlertFor, BarFree, Parsed, Verdict;
    if rules != [] {
      var init, last := rules[..|rules| - 1], rules[|rules| - 1];
      ParsedInit(rules);
      EvaluateDepends(init, m, a, b, stamps);
      ParsedBarFree(last);
      EvaluateCache(init, m, a, stamps, m.host, last.rawCommand);
      EvaluateCache(init, m, b, stamps, m.host, last.rawCommand);
      VerdictDepends(init, m, a, b, last.rawCommand);
    }
  }

  lemma VerdictDepends(rules: seq<AlertRule>, m: Metric, a: map<string, bool>, b: map<string, bool>, raw: string)
    requires Lookup(a, Key(m.host, raw)) == Lookup(b, Key(m.host, raw))
    ensures Verdict(rules, m, a, raw) == Verdict(rules, m, b, raw)
  {
    hide Matches, Key;
  }

  // ---- the whole history ---------------------------------------------------------------------

  function RulesOf(inputs: seq<Input>): seq<AlertRule> {
    if inputs == [] then [] else
      RulesOf(inputs[..|inputs| - 1]) +
      if inputs[|inputs| - 1].Register? then [inputs[|inputs| - 1].rule] else []
  }

  /** The last metric of a host in a history. */
  function LatestOf(inputs: seq<Input>, h: string): Option<Metric> {
    if inputs == [] then None else
      var e := inputs[|inputs| - 1];
      if e.Observe? && e.metric.host == h then Some(e.metric) else LatestOf(inputs[..|inputs| - 1], h)
  }

  /** The verdict on the last metric of a host, if the command was registered by then. */
  ghost function CacheOf(inputs: seq<Input>, h: string, raw: string): Option<bool> {
    if inputs == [] then None else
      var e, before := inputs[|inputs| - 1], inputs[..|inputs| - 1];
      if e.Observe? && e.metric.host == h
      then if Registered(RulesOf(before), raw) then Some(Matches(raw, e.metric)) else None
      else CacheOf(before, h, raw)
  }

  function Hosts(inputs: seq<Input>): set<string> {
    set i | 0 <= i < |inputs| && inputs[i].Observe? :: inputs[i].metric.host
  }

  lemma ParsedPrefix(inputs: seq<Input>, n: nat)
    requires ParsedInputs(inputs) && n <= |inputs|
    ensures ParsedInputs(inputs[..n])
  {}

  lemma {:induction false} HistoryRules(inputs: seq<Input>)
    ensures History(inputs).rules == RulesOf(inputs)
    ensures ParsedInputs(inputs) ==> ParsedRules(RulesOf(inputs))
  {
    hide Parsed, Evaluate;
    if inputs != [] {
      HistoryRules(inputs[..|inputs| - 1]);
    }
  }

  /** `latest_metrics_` is the last-write map of every metric ever accepted: one entry per host
      ever seen, under its own host name, whatever connections came and went. */
  lemma {:induction false} LastWrite(inputs: seq<Input>)
    ensures forall h :: Lookup(History(inputs).latest, h) == LatestOf(inputs, h)
    ensures forall h :: h in History(inputs).latest ==> History(inputs).latest[h].host == h
    ensures History(inputs).latest.Keys == Hosts(inputs)
    ensures |History(inputs).latest| == |Hosts(inputs)|
  {
    hide Evaluate, Hosts;
    LatestKeys(inputs);
    if inputs != [] {
      LastWrite(inputs[..|inputs| - 1]);
    }
    assert |History(inputs).latest| == |History(inputs).latest.Keys|;
  }

  lemma {:induction false} LatestKeys(inputs: seq<Input>)
    ensures History(inputs).latest.Keys == Hosts(inputs)
  {
    hide Evaluate, Hosts;
    if inputs == [] {
      NoHosts();
    } else {
      LatestKeys(inputs[..|inputs| - 1]);
      HostsSnoc(inputs);
    }
  }

  lemma NoHosts()
    ensures Hosts([]) == {}
  {}

  lemma HostsSnoc(inputs: seq<Input>)
    requires inputs != []
    ensures Hosts(inputs) == Hosts(inputs[..|inputs| - 1]) +
                             match inputs[|inputs| - 1] case Observe(m, _) => {m.host} case Register(_) => {}
  {
    var before := inputs[..|inputs| - 1];
    assert forall i :: 0 <= i < |before| ==> inputs[i] == before[i];
  }

  /** A command nobody registered has no entry. */
  lemma {:induction false} UnregisteredUncached(inputs: seq<Input>, h: string, raw: string)
    requires !Registered(RulesOf(inputs), raw)
    ensures CacheOf(inputs, h, raw) == None
  {
    if inputs != [] {
      var before := inputs[..|inputs| - 1];
      RegisteredPrefix(inputs, raw);
      UnregisteredUncached(before, h, raw);
    }
  }

  lemma RegisteredPrefix(inputs: seq<Input>, raw: string)
    requires inputs != []
    ensures Registered(RulesOf(inputs[..|inputs| - 1]), raw) ==> Registered(RulesOf(inputs), raw)
  {
    var before := RulesOf(inputs[..|inputs| - 1]);
    if Registered(before, raw) {
      var i :| 0 <= i < |before| && before[i].rawCommand == raw;
      assert RulesOf(inputs)[i].rawCommand == raw;
    }
  }

  /** Cache coherence in every reachable state: the entry of a host and command is the verdict on
      that host's latest metric, and is absent exactly when no metric of the host arrived since the
      command was registered. */
  lemma {:induction false} CacheCoherent(inputs: seq<Input>, h: string, raw: string)
    requires ParsedInputs(inputs) && BarFree(raw)
    ensures Lookup(History(inputs).active, Key(h, raw)) == CacheOf(inputs, h, raw)
  {
    hide Matches, Key, BarFree, Parsed, Evaluate;
    if inputs != [] {
      var before, e := inputs[..|inputs| - 1], inputs[|inputs| - 1];
      ParsedPrefix(inputs, |inputs| - 1);
      CacheCoherent(before, h, raw);
      HistoryRules(before);
      if e.Observe? {
        EvaluateCache(RulesOf(before), e.metric, History(before).active, e.stamps, h, raw);
        if e.metric.host == h && !Registered(RulesOf(before), raw) {
          UnregisteredUncached(before, h, raw);
        }
      }
    }
  }

  /** A stored entry is `rule_matches` on the stored metric. */
  lemma {:induction false} CacheIsVerdictOnLatest(inputs: seq<Input>, h: string, raw: string)
    ensures CacheOf(inputs, h, raw).Some? ==>
              LatestOf(inputs, h).Some? && CacheOf(inputs, h, raw).value == Matches(raw, LatestOf(inputs, h).value)
  {
    hide Matches;
    if inputs != [] {
      CacheIsVerdictOnLatest(inputs[..|inputs| - 1], h, raw);
    }
  }

  // ---- edge-triggered alerts over whole histories ---------------------------------------------

  /** At input `n` the command goes from not matching to matching on this host: it is registered,
      it matches this metric, and it was not matching on the host's previous metric since
      registration. */
  ghost predicate RisingEdge(inputs: seq<Input>, n: nat, raw: string)
    requires n < |inputs| && inputs[n].Observe?
  {
    && Registered(RulesOf(inputs[..n]), raw)
    && Matches(raw, inputs[n].metric)
    && CacheOf(inputs[..n], inputs[n].metric.host, raw) != Some(true)
  }

  function EmittedAt(inputs: seq<Input>, n: nat): seq<AlertEvent>
    requires n < |inputs|
  {
    Emits(History(inputs[..n]), inputs[n])
  }

  /** In every history, each metric emits exactly one alert for each command with a rising edge
      there and none for the others. */
  lemma AlertsAtRisingEdges(inputs: seq<Input>, n: nat, raw: string)
    requires ParsedInputs(inputs) && n < |inputs| && inputs[n].Observe?
    ensures CountFor(EmittedAt(inputs, n), raw) == if RisingEdge(inputs, n, raw) then 1 else 0
  {
    hide Matches, Key, BarFree, Parsed, Evaluate, CacheOf, RulesOf, CountFor, Registered;
    var before, m := inputs[..n], inputs[n].metric;
    ParsedPrefix(inputs, n);
    HistoryRules(before);
    if BarFree(raw) {
      EvaluateCounts(RulesOf(before), m, History(before).active, inputs[n].stamps, raw);
      CacheCoherent(before, m.host, raw);
    } else {
      BarsNeverCount(RulesOf(before), m, History(before).active, inputs[n].stamps, raw);
    }
  }

  lemma {:induction false} Counted(alerts: seq<AlertEvent>, raw: string) returns (i: nat)
    requires CountFor(alerts, raw) > 0
    ensures i < |alerts| && alerts[i].rule == raw
  {
    var n := |alerts| - 1;
    if alerts[n].rule == raw {
      i := n;
    } else {
      i := Counted(alerts[..n], raw);
    }
  }

  /** A text with a bar is no command: it is never registered and never the rule of an alert. */
  lemma BarsNeverCount(rules: seq<AlertRule>, m: Metric, active: map<string, bool>, stamps: seq<string>, raw: string)
    requires ParsedRules(rules) && !BarFree(raw)
    ensures !Registered(rules, raw) && CountFor(Evaluate(rules, m, active, stamps).alerts, raw) == 0
  {
    hide Evaluate, BarFree, Parsed, CountFor, RuleMatches, AlertFor, Tells;
    forall k | 0 <= k < |rules|
      ensures rules[k].rawCommand != raw
    {
      ParsedBarFree(rules[k]);
    }
    var alerts := Evaluate(rules, m, active, stamps).alerts;
    if CountFor(alerts, raw) > 0 {
      var i := Counted(alerts, raw);
      EvaluateAlerts(rules, m, active, stamps, i);
      var k :| 0 <= k < |rules| && RuleMatches(rules[k], m) && alerts[i] == AlertFor(rules[k], m, Reading(stamps, i));
      AlertNamesRule(rules[k], m, Reading(stamps, i));
    }
  }

  ghost predicate ObservesHost(e: Input, h: string) {
    e.Observe? && e.metric.host == h
  }

  /** The cache after a history, by the position of the host's last metric. */
  lemma {:induction false} CacheMeaning(inputs: seq<Input>, h: string, raw: string, p: nat)
    requires p < |inputs| && ObservesHost(inputs[p], h)
    requires forall q :: p < q < |inputs| ==> !ObservesHost(inputs[q], h)
    ensures CacheOf(inputs, h, raw) ==
            if Registered(RulesOf(inputs[..p]), raw) then Some(Matches(raw, inputs[p].metric)) else None
  {
    hide Matches, RulesOf, Registered;
    if p < |inputs| - 1 {
      var before := inputs[..|inputs| - 1];
      assert before[..p] == inputs[..p];
      CacheMeaning(before, h, raw, p);
    }
  }

  lemma {:induction false} StaysRegistered(inputs: seq<Input>, n: nat, raw: string)
    requires n <= |inputs| && Registered(RulesOf(inputs[..n]), raw)
    ensures Registered(RulesOf(inputs), raw)
  {
    hide Registered, RulesOf;
    if n < |inputs| {
      assert inputs[..|inputs| - 1][..n] == inputs[..n];
      StaysRegistered(inputs[..|inputs| - 1], n, raw);
      RegisteredPrefix(inputs, raw);
    } else {
      assert inputs[..n] == inputs;
    }
  }

  lemma {:induction false} LastObservation(inputs: seq<Input>, h: string, n: nat) returns (p: nat)
    requires n < |inputs| && ObservesHost(inputs[n], h)
    ensures n <= p < |inputs| && ObservesHost(inputs[p], h)
    ensures forall q :: p < q < |inputs| ==> !ObservesHost(inputs[q], h)
  {
    var last := |inputs| - 1;
    if ObservesHost(inputs[last], h) {
      p := last;
    } else {
      p := LastObservation(inputs[..last], h, n);
    }
  }

  /** No entry means that no metric of the host arrived while the command was registered. */
  lemma CacheAbsent(inputs: seq<Input>, h: string, raw: string)
    ensures CacheOf(inputs, h, raw) == None <==>
            forall p :: 0 <= p < |inputs| && ObservesHost(inputs[p], h) ==> !Registered(RulesOf(inputs[..p]), raw)
  {
    hide Matches, RulesOf, CacheOf, Registered;
    if p: nat :| p < |inputs| && ObservesHost(inputs[p], h) {
      var q := LastObservation(inputs, h, p);
      CacheMeaning(inputs, h, raw, q);
      forall k: nat | k < |inputs| && ObservesHost(inputs[k], h) && Registered(RulesOf(inputs[..k]), raw)
        ensures Registered(RulesOf(inputs[..q]), raw)
      {
        assert k <= q;
        assert inputs[..q][..k] == inputs[..k];
        StaysRegistered(inputs[..q], k, raw);
      }
    } else {
      NeverObserved(inputs, h, raw);
    }
  }

  lemma {:induction false} NeverObserved(inputs: seq<Input>, h: string, raw: string)
    requires forall p :: 0 <= p < |inputs| ==> !ObservesHost(inputs[p], h)
    ensures CacheOf(inputs, h, raw) == None
  {
    hide Matches, RulesOf, Registered;
    if inputs != [] {
      NeverObserved(inputs[..|inputs| - 1], h, raw);
    }
  }

  /** Two alerts for the same host and command always have a non-matching metric of that host
      between them. */
  lemma GapBetweenAlerts(inputs: seq<Input>, n1: nat, n2: nat, h: string, raw: string) returns (p: nat)
    requires ParsedInputs(inputs) && n1 < n2 < |inputs| && ObservesHost(inputs[n1], h) && ObservesHost(inputs[n2], h)
    requires CountFor(EmittedAt(inputs, n1), raw) > 0 && CountFor(EmittedAt(inputs, n2), raw) > 0
    ensures n1 < p < n2 && ObservesHost(inputs[p], h) && !Matches(raw, inputs[p].metric)
  {
    hide Matches, RulesOf, CacheOf, Registered, CountFor, EmittedAt, Parsed;
    AlertsAtRisingEdges(inputs, n1, raw);
    AlertsAtRisingEdges(inputs, n2, raw);
    var before := inputs[..n2];
    p := LastObservation(before, h, n1);
    CacheMeaning(before, h, raw, p);
    assert before[..p][..n1] == inputs[..n1];
    StaysRegistered(before[..p], n1, raw);
  }

  // ---- hosts do not interfere ------------------------------------------------------------------

  /** A history with only one host's metrics and all the rule commands. */
  function Only(inputs: seq<Input>, h: string): seq<Input> {
    if inputs == [] then [] else
      var e := inputs[|inputs| - 1];
      Only(inputs[..|inputs| - 1], h) + if e.Observe? && e.metric.host != h then [] else [e]
  }

  /** All alerts of one host, in order. */
  function HostLog(inputs: seq<Input>, h: string): seq<AlertEvent> {
    if inputs == [] then [] else
      var before, e := inputs[..|inputs| - 1], inputs[|inputs| - 1];
      HostLog(before, h) + if e.Observe? && e.metric.host == h then Emits(History(before), e) else []
  }

  lemma {:induction false} OnlyAgrees(inputs: seq<Input>, h: string)
    ensures RulesOf(Only(inputs, h)) == RulesOf(inputs)
    ensures forall raw :: CacheOf(Only(inputs, h), h, raw) == CacheOf(inputs, h, raw)
    ensures ParsedInputs(inputs) ==> ParsedInputs(Only(inputs, h))
  {
    hide Matches, Registered, Parsed;
    if inputs != [] {
      var before, e := inputs[..|inputs| - 1], inputs[|inputs| - 1];
      OnlyAgrees(before, h);
      if e.Observe? && e.metric.host != h {
        assert Only(inputs, h) == Only(before, h);
      } else {
        assert Only(inputs, h)[..|Only(inputs, h)| - 1] == Only(before, h);
      }
    }
  }

  /** Host non-interference: the alert sequence of a host is a function of its own metrics and the
      rule commands; erasing every other host's metrics leaves it unchanged. */
  lemma {:induction false} HostsDoNotInterfere(inputs: seq<Input>, h: string)
    requires ParsedInputs(inputs)
    ensures HostLog(Only(inputs, h), h) == HostLog(inputs, h)
  {
    hide Matches, Registered, Parsed, Evaluate, Run, CacheOf, RulesOf, Key, BarFree;
    if inputs != [] {
      var before, e := inputs[..|inputs| - 1], inputs[|inputs| - 1];
      ParsedPrefix(inputs, |inputs| - 1);
      HostsDoNotInterfere(before, h);
      if e.Observe? && e.metric.host != h {
        assert Only(inputs, h) == Only(before, h);
      } else {
        assert Only(inputs, h)[..|Only(inputs, h)| - 1] == Only(before, h);
        if e.Observe? {
          SameEmission(before, h, e);
        }
      }
    }
  }

  lemma SameEmission(before: seq<Input>, h: string, e: Input)
    requires ParsedInputs(before) && ObservesHost(e, h)
    ensures Emits(History(Only(before, h)), e) == Emits(History(before), e)
  {
    hide Matches, Registered, Parsed, Evaluate, CacheOf, RulesOf, Key, BarFree;
    OnlyAgrees(before, h);
    HistoryRules(before);
    HistoryRules(Only(before, h));
    var a, b := History(Only(before, h)).active, History(before).active;
    forall raw | BarFree(raw)
      ensures Lookup(a, Key(h, raw)) == Lookup(b, Key(h, raw))
    {
      CacheCoherent(before, h, raw);
      CacheCoherent(Only(before, h), h, raw);
    }
    EvaluateDepends(RulesOf(before), e.metric, a, b, e.stamps);
  }

  /** The entries one metric writes. */
  function Verdicts(rules: seq<AlertRule>, m: Metric): map<string, bool> {
    if rules == [] then map[] else
      Verdicts(rules[..|rules| - 1], m)[Key(m.host, rules[|rules| - 1].rawCommand) := RuleMatches(rules[|rules| - 1], m)]
  }

  lemma {:induction false} EvaluateOverlays(rules: seq<AlertRule>, m: Metric, active: map<string, bool>, stamps: seq<string>)
    ensures Evaluate(rules, m, active, stamps).active == active + Verdicts(rules, m)
  {
    hide RuleMatches, Key, AlertFor;
    if rules != [] {
      EvaluateOverlays(rules[..|rules| - 1], m, active, stamps);
    }
  }

  lemma {:induction false} VerdictKeys(rules: seq<AlertRule>, m: Metric, h: string, raw: string)
    requires ParsedRules(rules) && BarFree(raw) && h != m.host
    ensures Key(h, raw) !in Verdicts(rules, m)
  {
    hide RuleMatches, Key, BarFree, Parsed;
    if rules != [] {
      ParsedInit(rules);
      VerdictKeys(rules[..|rules| - 1], m, h, raw);
      ParsedBarFree(rules[|rules| - 1]);
      KeyInjective(h, raw, m.host, rules[|rules| - 1].rawCommand);
    }
  }

  lemma {:induction false} VerdictsDisjoint(rules: seq<AlertRule>, prefix: seq<AlertRule>, m1: Metric, m2: Metric)
    requires ParsedRules(rules) && prefix <= rules && m1.host != m2.host
    ensures Verdicts(prefix, m1).Keys !! Verdicts(rules, m2).Keys
  {
    hide RuleMatches, Key, BarFree, Parsed;
    if prefix != [] {
      var init, last := prefix[..|prefix| - 1], prefix[|prefix| - 1];
      VerdictsDisjoint(rules, init, m1, m2);
      assert last == rules[|prefix| - 1];
      ParsedBarFree(last);
      VerdictKeys(rules, m2, m1.host, last.rawCommand);
    }
  }

  /** Swapping two adjacent metrics of different hosts changes neither the state nor either
      host's alerts. */
  lemma SwapMetrics(c: Core, e1: Input, e2: Input)
    requires ParsedRules(c.rules) && e1.Observe? && e2.Observe? && e1.metric.host != e2.metric.host
    ensures Apply(Apply(c, e1), e2) == Apply(Apply(c, e2), e1)
    ensures Emits(Apply(c, e2), e1) == Emits(c, e1) && Emits(Apply(c, e1), e2) == Emits(c, e2)
  {
    hide Evaluate, ParsedRules;
    SwapCaches(c, e1, e2);
    KeepsEmission(c, e1, e2);
    KeepsEmission(c, e2, e1);
    var m1, m2 := e1.metric, e2.metric;
    assert c.latest[m1.host := m1][m2.host := m2] == c.latest[m2.host := m2][m1.host := m1];
  }

  lemma SwapCaches(c: Core, e1: Input, e2: Input)
    requires ParsedRules(c.rules) && e1.Observe? && e2.Observe? && e1.metric.host != e2.metric.host
    ensures Apply(Apply(c, e1), e2).active == Apply(Apply(c, e2), e1).active
  {
    hide Evaluate, Verdicts, ParsedRules;
    var v1, v2 := Verdicts(c.rules, e1.metric), Verdicts(c.rules, e2.metric);
    EvaluateOverlays(c.rules, e1.metric, c.active, e1.stamps);
    EvaluateOverlays(c.rules, e2.metric, c.active, e2.stamps);
    EvaluateOverlays(c.rules, e1.metric, c.active + v2, e1.stamps);
    EvaluateOverlays(c.rules, e2.metric, c.active + v1, e2.stamps);
    VerdictsDisjoint(c.rules, c.rules, e1.metric, e2.metric);
    assert c.active + v1 + v2 == c.active + v2 + v1;
  }

  lemma KeepsEmission(c: Core, e: Input, other: Input)
    requires ParsedRules(c.rules) && e.Observe? && other.Observe? && e.metric.host != other.metric.host
    ensures Emits(Apply(c, other), e) == Emits(c, e)
  {
    hide Evaluate, ParsedRules, Key, BarFree;
    var a := Apply(c, other).active;
    forall raw | BarFree(raw)
      ensures Lookup(a, Key(e.metric.host, raw)) == Lookup(c.active, Key(e.metric.host, raw))
    {
      EvaluateCache(c.rules, other.metric, c.active, other.stamps, e.metric.host, raw);
    }
    EvaluateDepends(c.rules, e.metric, a, c.active, e.stamps);
  }

  // ---- registering a rule again changes nothing -------------------------------------------------

  lemma SetAgain(m: map<string, bool>, key: string, value: bool)
    requires Lookup(m, key) == Some(value)
    ensures m[key := value] == m
  {}

  /** A second copy of a rule, anywhere after the first, never fires and leaves the cache as it is. */
  lemma {:induction false} DuplicateNeverFires(front: seq<AlertRule>, r: AlertRule, back: seq<AlertRule>, m: Metric,
                                               active: map<string, bool>, stamps: seq<string>)
    requires ParsedRules(front) && Parsed(r) && Registered(front, r.rawCommand)
    ensures Evaluate(front + [r] + back, m, active, stamps) == Evaluate(front + back, m, active, stamps)
  {
    hide Matches, RuleMatches, Key, AlertFor, BarFree, Parsed, Registered;
    if back == [] {
      assert front + back == front && front + [r] + back == front + [r];
      assert (front + [r])[..|front|] == front;
      ParsedBarFree(r);
      EvaluateCache(front, m, active, stamps, m.host, r.rawCommand);
      MatchesOf(r, m);
      SetAgain(Evaluate(front, m, active, stamps).active, Key(m.host, r.rawCommand), RuleMatches(r, m));
    } else {
      var init := back[..|back| - 1];
      assert (front + [r] + back)[..|front + [r] + back| - 1] == front + [r] + init;
      assert (front + back)[..|front + back| - 1] == front + init;
      DuplicateNeverFires(front, r, init, m, active, stamps);
    }
  }

  /** All alerts of a run from a state, in order. */
  function Log(c: Core, inputs: seq<Input>): seq<AlertEvent> {
    if inputs == [] then [] else
      Log(c, inputs[..|inputs| - 1]) + Emits(Run(c, inputs[..|inputs| - 1]), inputs[|inputs| - 1])
  }

  /** Two states that differ by one repeated rule. */
  ghost predicate DiffersByDuplicate(c: Core, d: Core, front: seq<AlertRule>, r: AlertRule, back: seq<AlertRule>) {
    && c.latest == d.latest && c.active == d.active
    && d.rules == front + back && c.rules == front + [r] + back
    && ParsedRules(front) && Parsed(r) && Registered(front, r.rawCommand)
  }

  /** Registering a command that is already registered changes no later alert and no later
      state except for the repeated list entry. */
  lemma {:induction false} DuplicateIsSilent(c: Core, d: Core, front: seq<AlertRule>, r: AlertRule, inputs: seq<Input>)
    requires DiffersByDuplicate(c, d, front, r, [])
    ensures Log(c, inputs) == Log(d, inputs)
    ensures DiffersByDuplicate(Run(c, inputs), Run(d, inputs), front, r, RulesOf(inputs))
  {
    hide Evaluate, ParsedRules, Parsed, Registered;
    if inputs != [] {
      var before, e := inputs[..|inputs| - 1], inputs[|inputs| - 1];
      DuplicateIsSilent(c, d, front, r, before);
      var x, y := Run(c, before), Run(d, before);
      if e.Observe? {
        assert RulesOf(inputs) == RulesOf(before);
        DuplicateNeverFires(front, r, RulesOf(before), e.metric, x.active, e.stamps);
      } else {
        assert front + [r] + RulesOf(inputs) == front + [r] + RulesOf(before) + [e.rule];
        assert front + RulesOf(inputs) == front + RulesOf(before) + [e.rule];
      }
    }
  }

  /** In terms of histories: after `first`, registering `r` again is indistinguishable in the alerts
      of everything that follows. */
  lemma ReRegistrationIsSilent(first: seq<Input>, r: AlertRule, later: seq<Input>)
    requires ParsedInputs(first) && Parsed(r) && Registered(RulesOf(first), r.rawCommand)
    ensures Log(Run(EMPTY, first + [Register(r)]), later) == Log(Run(EMPTY, first), later)
  {
    hide Evaluate, ParsedRules, Parsed, Registered;
    var c, d := Run(EMPTY, first + [Register(r)]), Run(EMPTY, first);
    assert (first + [Register(r)])[..|first|] == first;
    HistoryRules(first);
    assert d.rules == RulesOf(first) + [] && c.rules == RulesOf(first) + [r] + [];
    DuplicateIsSilent(c, d, RulesOf(first), r, later);
  }
}
