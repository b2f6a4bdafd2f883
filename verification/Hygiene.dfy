/** Which control characters reach the printed events: none that `json.loads` rejects, as long as
    none of them arrived. */
module Hygiene {
  import opened Text
  import opened Decimal
  import opened Json
  import opened Fields
  import opened Records
  import opened Command
  import opened Wire
  import opened Alerting
  import opened Server

  lemma CleanSlice(s: string, lo: nat, hi: nat)
    requires Clean(s) && lo <= hi <= |s|
    ensures Clean(s[lo..hi])
  {}

  lemma CleanDrop(s: string, lo: nat)
    requires Clean(s) && lo <= |s|
    ensures Clean(s[lo..])
  {}

  lemma CleanSkip(s: string)
    requires Clean(s)
    ensures Clean(SkipSpace(s))
  {
    CleanDrop(s, Span(s, IsSpace));
  }

  lemma CleanConcat(a: string, b: string)
    ensures Clean(a + b) <==> Clean(a) && Clean(b)
  {
    AllConcat(a, b, CleanChar);
  }

  lemma CleanTrim(s: string)
    requires Clean(s)
    ensures Clean(Trim(s))
  {
    hide Clean, Trim;
    var lead, tail := TrimSplits(s);
    CleanConcat(lead + Trim(s), tail);
    CleanConcat(lead, Trim(s));
  }

  lemma CleanLower(s: string)
    requires Clean(s)
    ensures Clean(Lower(s))
  {}

  lemma {:induction false} CleanSearch(t: string, key: string)
    requires Clean(t)
    ensures Search(TextValue, t, key).Some? ==> Clean(Search(TextValue, t, key).value)
  {
    hide Here, Clean;
    HereClean(t, key);
    if t != [] {
      CleanDrop(t, 1);
      CleanSearch(t[1..], key);
    }
  }

  lemma HereClean(t: string, key: string)
    requires Clean(t)
    ensures Here(TextValue, t, key).Some? ==> Clean(Here(TextValue, t, key).value)
  {
    hide Clean, Span, SkipSpace;
    if Here(TextValue, t, key).Some? {
      var w := t[|key| + 2..];
      CleanDrop(t, |key| + 2);
      CleanSkip(w);
      var u := SkipSpace(w);
      CleanDrop(u, 1);
      CleanSkip(u[1..]);
      var x := SkipSpace(u[1..]);
      CleanSlice(x, 1, Span(x[1..], NotQuote) + 1);
    }
  }

  lemma CleanField(line: string, key: string, fallback: string)
    requires Clean(line) && Clean(fallback)
    ensures Clean(JsonGetString(line, key).Or(fallback))
  {
    hide Clean, Search;
    CleanSearch(line, key);
  }

  ghost predicate CleanClock(clock: seq<string>) {
    forall k :: 0 <= k < |clock| ==> Clean(clock[k])
  }

  lemma CleanReading(clock: seq<string>, k: nat)
    requires CleanClock(clock)
    ensures Clean(Reading(clock, k))
    ensures CleanClock(Later(clock))
  {}

  ghost predicate CleanClient(c: Client) {
    Clean(c.peerLabel) && Clean(c.declaredHost) && Clean(c.buffer)
  }

  ghost predicate CleanCore(core: Core) {
    && (forall h :: h in core.latest ==> CleanMetric(core.latest[h]))
    && (forall i :: 0 <= i < |core.rules| ==> CleanRule(core.rules[i]) && Clean(core.rules[i].displayMetric))
  }

  ghost predicate CleanState(s: State) {
    CleanCore(s.core) && forall k :: 0 <= k < |s.clients| ==> CleanClient(s.clients[k])
  }

  ghost predicate CleanRequest(q: Request) {
    match q
    case Hello(role, host) => Clean(role) && Clean(host)
    case Report(m) => CleanMetric(m)
    case AddRule(r) => CleanRule(r) && Clean(r.displayMetric)
    case Talk(c) => Clean(c.sender) && Clean(c.text) && Clean(c.timestamp)
    case _ => true
  }

  lemma TokenNamesClean(token: string)
    ensures MetricOfToken(token).Some? ==> Clean(MetricOfToken(token).value.0) && Clean(MetricOfToken(token).value.1)
  {
    hide Clean;
    ShareNamesClean();
    RateNamesClean();
  }

  lemma ShareNamesClean()
    ensures Clean("cpu_percent") && Clean("CPU") && Clean("memory_percent") && Clean("Memory")
    ensures Clean("disk_percent") && Clean("Disk")
  {}

  lemma RateNamesClean()
    ensures Clean("network_rx_kbps") && Clean("Network RX") && Clean("network_tx_kbps") && Clean("Network TX")
  {}

  lemma CleanRuleText(text: string)
    requires Clean(text) && ParseAlertCommand(text).Some?
    ensures CleanRule(ParseAlertCommand(text).value) && Clean(ParseAlertCommand(text).value.displayMetric)
  {
    hide Clean, MetricOfToken, MatchCommand, Trim, Lower;
    CleanTrim(text);
    TokenNamesClean(Lower(MatchCommand(text).value.token));
  }

  lemma CleanCommand(text: string)
    requires Clean(text)
    ensures CleanRequest(ClassifyCommand(text))
  {
    hide Clean, ParseAlertCommand, CleanRule, Lower, Trim;
    if ParseAlertCommand(text).Some? {
      CleanRuleText(text);
    }
  }

  lemma EmptyClean()
    ensures Clean("")
  {}

  lemma CleanDecode(line: string, declaredHost: string, now: string)
    requires Clean(line) && Clean(declaredHost) && Clean(now)
    ensures CleanMetric(DecodeMetric(line, declaredHost, now))
  {
    hide Clean, JsonGetString, JsonGetNumber, JsonGetInteger;
    CleanField(line, "host", declaredHost);
    CleanField(line, "timestamp", now);
  }

  /** Whatever a clean line asks for is clean. */
  lemma CleanClassify(c: Client, line: string, clock: seq<string>)
    requires CleanClient(c) && Clean(line) && CleanClock(clock)
    ensures CleanRequest(Classify(c, line, clock))
  {
    hide Clean, JsonGetString, DecodeMetric, ClassifyCommand, Lower, CleanMetric, CleanRule;
    EmptyClean();
    CleanReading(clock, 0);
    CleanField(line, "role", "");
    CleanLower(JsonGetString(line, "role").Or(""));
    CleanField(line, "host", c.peerLabel);
    CleanDecode(line, c.declaredHost, Reading(clock, 0));
    CleanField(line, "text", "");
    CleanCommand(JsonGetString(line, "text").Or(""));
    CleanField(line, "from", if c.declaredHost == "" then c.peerLabel else c.declaredHost);
  }

  // ---- runs ------------------------------------------------------------------------------------

  ghost predicate CleanStep(step: Step) {
    match step
    case Accept(_, peer) => Clean(peer)
    case Receive(_, chunk) => Clean(chunk)
    case TakeLine(_, clock) => CleanClock(clock)
    case Disconnect(_) => true
  }

  ghost predicate CleanSteps(steps: seq<Step>) {
    forall i :: 0 <= i < |steps| ==> CleanStep(steps[i])
  }

  lemma CleanAdvance(core: Core, q: Request, clock: seq<string>)
    requires CleanCore(core) && CleanRequest(q)
    ensures CleanCore(Advance(core, InputOf(q, clock)))
  {
    hide Clean, CleanMetric, CleanRule, Evaluate;
  }

  lemma CleanServe(s: State, i: nat, q: Request, clock: seq<string>)
    requires i < |s.clients| && CleanState(s) && CleanRequest(q)
    ensures CleanState(Serve(s, i, q, clock))
  {
    hide Clean, CleanCore, CleanMetric, CleanRule, Published, Replies, Advance, InputOf;
    CleanAdvance(s.core, q, clock);
  }

  lemma CleanFirst(buffer: string)
    requires Clean(buffer)
    ensures Clean(FirstOf(buffer).0) && Clean(FirstOf(buffer).1)
  {
    hide Clean, Trim;
    var n := Span(buffer, NotNewline);
    if n < |buffer| {
      CleanSlice(buffer, 0, n);
      assert buffer[0..n] == buffer[..n];
      CleanTrim(buffer[..n]);
      CleanDrop(buffer, n + 1);
    } else {
      EmptyClean();
    }
  }

  lemma CleanTake(s: State, i: nat, clock: seq<string>)
    requires i < |s.clients| && CleanState(s) && CleanClock(clock)
    ensures CleanState(Take(s, i, clock))
    ensures CleanRequest(Classify(s.clients[i], FirstOf(s.clients[i].buffer).0, clock))
  {
    hide Clean, CleanCore, FirstOf, Classify, Serve, CleanRequest;
    var (line, rest) := FirstOf(s.clients[i].buffer);
    CleanFirst(s.clients[i].buffer);
    var t := SetBuffer(s, i, rest);
    CleanClassify(s.clients[i], line, clock);
    CleanClassify(t.clients[i], line, clock);
    CleanServe(t, i, Classify(t.clients[i], line, clock), clock);
  }

  lemma CleanDo(s: State, step: Step)
    requires CleanState(s) && CleanStep(step)
    ensures CleanState(Do(s, step))
  {
    hide Clean, CleanCore, Take, HasLine;
    match step
    case Accept(fd, peer) =>
      EmptyClean();
    case Receive(i, chunk) =>
      if i < |s.clients| {
        CleanConcat(s.clients[i].buffer, chunk);
      }
    case TakeLine(i, clock) =>
      if i < |s.clients| {
        CleanTake(s, i, clock);
      }
    case Disconnect(i) =>
  }

  lemma {:induction false} CleanRun(steps: seq<Step>)
    requires CleanSteps(steps)
    ensures CleanState(RunSteps(START, steps))
  {
    hide Clean, CleanState, Do, CleanStep;
    if steps == [] {
      CleanStart();
    } else {
      CleanRun(steps[..|steps| - 1]);
      CleanDo(RunSteps(START, steps[..|steps| - 1]), steps[|steps| - 1]);
    }
  }

  lemma CleanStart()
    ensures CleanState(START)
  {}

  /** Every alert of a clean core on a clean metric is clean. */
  lemma CleanAlertFor(r: AlertRule, m: Metric, stamp: string)
    requires CleanRule(r) && Clean(r.displayMetric) && CleanMetric(m) && Clean(stamp)
    ensures CleanAlert(AlertFor(r, m, stamp))
  {
    hide Clean, FormatDouble, MetricValue;
    var value := MetricValue(m, r.metricKey);
    CleanPhrases();
    CleanFormat(value);
    CleanConcat(r.displayMetric, " on ");
    CleanConcat(r.displayMetric + " on ", m.host);
    CleanConcat(r.displayMetric + " on " + m.host, " crossed threshold at ");
    CleanConcat(r.displayMetric + " on " + m.host + " crossed threshold at ", FormatDouble(value));
  }

  lemma CleanPhrases()
    ensures Clean(" on ") && Clean(" crossed threshold at ")
  {}

  lemma CleanFormat(d: Double)
    ensures Clean(FormatDouble(d))
  {
    hide FormatDouble;
    var whole, fraction, body := FormatParts(d);
    var sign := if d.negative then "-" else "";
    AllConcat(whole, ".", CleanChar);
    AllConcat(whole + ".", fraction, CleanChar);
    AllConcat(sign, body, CleanChar);
  }

  lemma CleanEmission(core: Core, m: Metric, stamps: seq<string>, i: nat)
    requires CleanCore(core) && CleanMetric(m) && CleanClock(stamps)
    requires i < |Emits(core, Observe(m, stamps))|
    ensures CleanAlert(Emits(core, Observe(m, stamps))[i])
  {
    hide Clean, CleanRule, CleanMetric, CleanAlert, Evaluate, RuleMatches, AlertFor;
    EvaluateAlerts(core.rules, m, core.active, stamps, i);
    var k :| 0 <= k < |core.rules| && RuleMatches(core.rules[k], m)
             && Emits(core, Observe(m, stamps))[i] == AlertFor(core.rules[k], m, Reading(stamps, i));
    CleanReading(stamps, i);
    CleanAlertFor(core.rules[k], m, Reading(stamps, i));
  }
}
