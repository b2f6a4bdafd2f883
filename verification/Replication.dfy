/** Server and dashboard together: what a dashboard holds after reading the server's stream. */
module Replication {
  import opened Text
  import opened Decimal
  import opened Json
  import opened Records
  import opened Wire
  import opened HostOrder
  import opened Server
  import opened Dashboard

  /** The server's metrics as a dashboard holds them: printed at two decimals. */
  function Printed(latest: map<string, Metric>): map<string, Json> {
    map h | h in latest :: MetricJson(latest[h])
  }

  // ---- reading an event text -----------------------------------------------------------------

  ghost predicate Event(text: string, j: Json) {
    j.JObj? && Shaped(j) && CleanJson(j) && text == Render(j)
  }

  lemma NotBlank(s: string)
    requires s != [] && !IsSpace(s[0])
    ensures Trim(s) != ""
  {
    assert [] + s == s;
    SpanStops([], s, IsSpace);
    var r := DropTrailing(s);
    assert s[|r|..] == s || r != [];
  }

  lemma EventHandled(text: string, j: Json, b: Board, env: Env)
    requires Event(text, j)
    ensures Loads(text) == Some(j) && Trim(text) != ""
    ensures HandleText(Running(b), text, env) == HandleEvent(b, j, env)
    ensures All(text, NotNewline)
  {
    hide Loads, HandleEvent, Trim, Shaped, CleanJson, RenderFields;
    LoadsRender(j);
    RenderSingleLine(j);
    assert text[0] == '{';
    NotBlank(text);
  }

  /** The events the server prints, by kind. */
  ghost predicate EventOf(text: string, j: Json, kind: string) {
    Event(text, j) && KindOf(j) == kind
  }

  lemma MetricEvent(m: Metric)
    requires CleanMetric(m)
    ensures EventOf(MetricText(m), MetricEventJson(m), "metric")
    ensures Get(MetricEventJson(m).fields, "data") == Some(MetricJson(m))
  {
    hide MetricJson, Shaped, CleanJson, Render, CleanMetric, Get;
    MetricEventShape(m);
    Get2(Str("type", "metric"), Field("data", MetricJson(m)), "type");
    Get2(Str("type", "metric"), Field("data", MetricJson(m)), "data");
  }

  lemma AlertEventKind(a: AlertEvent)
    requires CleanAlert(a)
    ensures EventOf(AlertText(a), AlertEventJson(a), "alert")
    ensures Get(AlertEventJson(a).fields, "data") == Some(AlertJson(a))
  {
    hide AlertJson, Shaped, CleanJson, Render, CleanAlert, Get;
    AlertEventShape(a);
    Get2(Str("type", "alert"), Field("data", AlertJson(a)), "type");
    Get2(Str("type", "alert"), Field("data", AlertJson(a)), "data");
  }

  lemma RulesEvent(rules: seq<AlertRule>)
    requires forall i :: 0 <= i < |rules| ==> CleanRule(rules[i])
    ensures EventOf(RulesText(rules), RulesEventJson(rules), "rules")
    ensures Get(RulesEventJson(rules).fields, "items") == Some(JArr(RulesJson(rules)))
  {
    hide RulesJson, Shaped, CleanJson, Render, CleanRule, Get;
    RulesEventShape(rules);
    Get2(Str("type", "rules"), Field("items", JArr(RulesJson(rules))), "type");
    Get2(Str("type", "rules"), Field("items", JArr(RulesJson(rules))), "items");
  }

  lemma NoticeEvent(message: string)
    requires Clean(message)
    ensures EventOf(AckText(message), AckEventJson(message), "ack")
    ensures EventOf(ErrorText(message), ErrorEventJson(message), "error")
  {
    hide Shaped, CleanJson, Render, Clean, Get;
    AckShape(message);
    Get2(Str("type", "ack"), Str("message", message), "type");
    Get2(Str("type", "error"), Str("message", message), "type");
  }

  lemma ChatEvent(c: ChatMessage)
    requires Clean(c.sender) && Clean(c.text) && Clean(c.timestamp)
    ensures EventOf(ChatText(c), ChatEventJson(c), "chat")
  {
    hide Shaped, CleanJson, Render, Clean, Get;
    ChatShape(c);
    var rest := [Str("from", c.sender), Str("text", c.text), Str("timestamp", c.timestamp)];
    assert "from"[0] != "type"[0] && "text"[1] != "type"[1];
    GetHead(Str("type", "chat"), rest, "type");
    assert [Str("type", "chat")] + rest == ChatEventJson(c).fields;
  }

  lemma SnapshotEvent(stamp: string, ms: seq<Metric>)
    requires Clean(stamp) && forall i :: 0 <= i < |ms| ==> CleanMetric(ms[i])
    ensures var j := SnapshotEventJson(stamp, ms);
            EventOf(Render(j), j, "snapshot") && Get(j.fields, "metrics") == Some(JArr(MetricsJson(ms)))
  {
    hide MetricsJson, Shaped, CleanJson, Render, CleanMetric, Clean, Get;
    SnapshotShape(stamp, ms);
    var fields := SnapshotEventJson(stamp, ms).fields;
    GetHead(Str("type", "snapshot"), [Str("timestamp", stamp), Field("metrics", JArr(MetricsJson(ms)))], "type");
    assert [Str("type", "snapshot")] + [Str("timestamp", stamp), Field("metrics", JArr(MetricsJson(ms)))] == fields;
    GetAt(fields, 2, "metrics");
  }

  // ---- fields of a printed metric ----------------------------------------------------------------

  lemma AlertFieldNames(a: AlertEvent)
    ensures var fields := AlertJson(a).fields;
            && |fields| == 8 && fields[0].name == "host" && fields[1].name == "timestamp" && fields[2].name == "metric_key"
            && fields[3].name == "display_metric" && fields[4].name == "metric_value" && fields[5].name == "threshold"
            && fields[6].name == "rule" && fields[7].name == "message"
  {}

  lemma AlertSourceByName(a: AlertEvent)
    ensures var fields := AlertJson(a).fields;
            && Get(fields, "host") == Some(JStr(a.host)) && Get(fields, "timestamp") == Some(JStr(a.timestamp))
            && Get(fields, "metric_key") == Some(JStr(a.metricKey))
            && Get(fields, "display_metric") == Some(JStr(a.displayMetric))
  {
    hide Get, FormatDouble;
    AlertFieldNames(a);
    var fields := AlertJson(a).fields;
    assert "timestamp"[1] != "threshold"[1] && "metric_value"[7] != "metric_key"[7];
    GetAt(fields, 0, "host");
    GetAt(fields, 1, "timestamp");
    GetAt(fields, 2, "metric_key");
    GetAt(fields, 3, "display_metric");
  }

  lemma AlertFindingByName(a: AlertEvent)
    ensures var fields := AlertJson(a).fields;
            && Get(fields, "metric_value") == Some(JNum(FormatDouble(a.metricValue)))
            && Get(fields, "threshold") == Some(JNum(FormatDouble(a.threshold)))
            && Get(fields, "rule") == Some(JStr(a.rule)) && Get(fields, "message") == Some(JStr(a.message))
  {
    hide Get, FormatDouble;
    AlertFieldNames(a);
    var fields := AlertJson(a).fields;
    GetAt(fields, 4, "metric_value");
    GetAt(fields, 5, "threshold");
    GetAt(fields, 6, "rule");
    GetAt(fields, 7, "message");
  }

  /** A reader finds every part of a printed alert under its name. */
  lemma AlertFieldsByName(a: AlertEvent)
    ensures var fields := AlertJson(a).fields;
            && Get(fields, "host") == Some(JStr(a.host))
            && Get(fields, "timestamp") == Some(JStr(a.timestamp))
            && Get(fields, "metric_key") == Some(JStr(a.metricKey))
            && Get(fields, "display_metric") == Some(JStr(a.displayMetric))
            && Get(fields, "metric_value") == Some(JNum(FormatDouble(a.metricValue)))
            && Get(fields, "threshold") == Some(JNum(FormatDouble(a.threshold)))
            && Get(fields, "rule") == Some(JStr(a.rule))
            && Get(fields, "message") == Some(JStr(a.message))
  {
    hide Get, FormatDouble, AlertSource, AlertFinding;
    AlertSourceByName(a);
    AlertFindingByName(a);
  }

  lemma MetricFieldGet(m: Metric, i: nat)
    requires 1 <= i < 12
    ensures Get(MetricFields(m), NAMES[i]) == Some(PayloadValue(m, i))
  {
    hide MetricFields, NAMES, PayloadValue, Get;
    NamesCount();
    var fs := MetricFields(m);
    PayloadField(m, i);
    assert PayloadFields(m)[1..] == fs;
    forall k | i - 1 < k < 11
      ensures fs[k].name != NAMES[i]
    {
      PayloadField(m, k + 1);
      NamesDistinct(i, k + 1);
    }
    GetAt(fs, i - 1, NAMES[i]);
  }

  lemma NamesCount()
    ensures |NAMES| == 12
  {}

  lemma MetricHost(m: Metric)
    ensures Get(MetricFields(m), "host") == Some(JStr(m.host))
    ensures HostOf(MetricJson(m)) == Some(m.host)
  {
    hide MetricFields, Get;
    MetricFieldGet(m, 1);
  }

  /** The printed metric shows, under the key of a rule, the value the rule looks at. */
  lemma MetricValueField(m: Metric, key: string)
    requires RealMetricKey(key)
    ensures Get(MetricFields(m), key) == Some(JNum(FormatDouble(MetricValue(m, key))))
  {
    hide MetricFields, Get, FormatDouble;
    MetricFieldGet(m, 3);
    MetricFieldGet(m, 4);
    MetricFieldGet(m, 5);
    MetricFieldGet(m, 6);
    MetricFieldGet(m, 7);
  }

  // ---- what each text does to the replica ---------------------------------------------------------

  ghost predicate IsSnapshot(text: string) {
    Loads(text).Some? && KindOf(Loads(text).value) == "snapshot"
  }

  /** The data of an alert event. */
  ghost function AlertData(text: string): Option<seq<Field>> {
    match Loads(text)
    case None => None
    case Some(j) =>
      if KindOf(j) != "alert" then None else
        match Get(j.fields, "data")
        case Some(JObj(data)) => Some(data)
        case _ => None
  }

  ghost predicate KeepsMetrics(text: string) {
    forall b, env :: HandleText(Running(b), text, env).Running?
                     && HandleText(Running(b), text, env).board.metrics == b.metrics
  }

  ghost predicate KeepsRules(text: string) {
    forall b, env :: HandleText(Running(b), text, env).Running?
                     && HandleText(Running(b), text, env).board.rules == b.rules
  }

  ghost predicate SetsMetric(text: string, m: Metric) {
    forall b, env :: HandleText(Running(b), text, env).Running?
                     && HandleText(Running(b), text, env).board.metrics ==
                        if m.host == "" then b.metrics else b.metrics[m.host := MetricJson(m)]
  }

  ghost predicate SetsRules(text: string, rules: seq<AlertRule>) {
    forall b, env :: HandleText(Running(b), text, env).Running?
                     && HandleText(Running(b), text, env).board.rules == JArr(RulesJson(rules))
  }

  ghost predicate ShowsAll(text: string, latest: map<string, Metric>) {
    forall b, env :: HandleText(Running(b), text, env).Running?
                     && HandleText(Running(b), text, env).board.metrics == Printed(latest)
  }

  /** Neither metrics nor rules change, and the text is no snapshot; it is one line. */
  ghost predicate Quiet(text: string) {
    KeepsMetrics(text) && KeepsRules(text) && !IsSnapshot(text) && All(text, NotNewline)
  }

  lemma QuietEvent(text: string, j: Json, kind: string)
    requires EventOf(text, j, kind) && (kind == "alert" || kind == "chat" || kind == "ack" || kind == "error")
    ensures Quiet(text)
    ensures kind != "alert" ==> AlertData(text) == None
  {
    hide Loads, HandleText, Get, ChatOf, NoticeOf, Last, All, Shaped, CleanJson, Render;
    forall b, env
      ensures HandleText(Running(b), text, env) == HandleEvent(b, j, env) && Loads(text) == Some(j) && All(text, NotNewline)
    {
      EventHandled(text, j, b, env);
    }
    assert HandleText(Running(Board(false, None, map[], [], [], j, j)), text, QUIET).Running?;
  }

  lemma MetricEffect(m: Metric)
    requires CleanMetric(m)
    ensures SetsMetric(MetricText(m), m) && KeepsRules(MetricText(m)) && !IsSnapshot(MetricText(m))
    ensures All(MetricText(m), NotNewline) && AlertData(MetricText(m)) == None
  {
    hide Loads, HandleText, Get, All, Shaped, CleanJson, Render, MetricFields, CleanMetric;
    var text, j := MetricText(m), MetricEventJson(m);
    MetricEvent(m);
    MetricHost(m);
    forall b, env
      ensures HandleText(Running(b), text, env) == HandleEvent(b, j, env) && Loads(text) == Some(j) && All(text, NotNewline)
    {
      EventHandled(text, j, b, env);
    }
    assert HandleText(Running(Board(false, None, map[], [], [], j, j)), text, QUIET).Running?;
  }

  lemma RulesEffect(rules: seq<AlertRule>)
    requires forall i :: 0 <= i < |rules| ==> CleanRule(rules[i])
    ensures SetsRules(RulesText(rules), rules) && KeepsMetrics(RulesText(rules)) && !IsSnapshot(RulesText(rules))
    ensures All(RulesText(rules), NotNewline) && AlertData(RulesText(rules)) == None
  {
    hide Loads, HandleText, Get, All, Shaped, CleanJson, Render, RulesJson, CleanRule;
    var text, j := RulesText(rules), RulesEventJson(rules);
    RulesEvent(rules);
    forall b, env
      ensures HandleText(Running(b), text, env) == HandleEvent(b, j, env) && Loads(text) == Some(j) && All(text, NotNewline)
    {
      EventHandled(text, j, b, env);
    }
    assert HandleText(Running(Board(false, None, map[], [], [], j, j)), text, QUIET).Running?;
  }

  // ---- a snapshot shows the whole map ---------------------------------------------------------------

  /** The map holds the printed form of exactly these metrics, by host. */
  ghost predicate Indexes(ms: seq<Metric>, r: map<string, Json>) {
    && (forall h :: h in r ==> exists i :: 0 <= i < |ms| && ms[i].host == h)
    && (forall i :: 0 <= i < |ms| ==> ms[i].host in r && r[ms[i].host] == MetricJson(ms[i]))
  }

  lemma IndexesSnoc(init: seq<Metric>, last: Metric, r: map<string, Json>)
    requires Indexes(init, r) && forall i :: 0 <= i < |init| ==> init[i].host != last.host
    ensures Indexes(init + [last], r[last.host := MetricJson(last)])
  {
    hide MetricJson;
    var ms, s := init + [last], r[last.host := MetricJson(last)];
    assert ms[|init|] == last;
    forall h | h in s
      ensures exists i :: 0 <= i < |ms| && ms[i].host == h
    {
      if h != last.host {
        var i :| 0 <= i < |init| && init[i].host == h;
        assert ms[i].host == h;
      }
    }
  }

  lemma ByHostSnoc(init: seq<Metric>, last: Metric)
    requires ByHost(MetricsJson(init)).Some? && HostOf(MetricJson(last)) == Some(last.host)
    ensures ByHost(MetricsJson(init + [last])) == Some(ByHost(MetricsJson(init)).value[last.host := MetricJson(last)])
  {
    hide MetricJson, HostOf;
    var js := MetricsJson(init + [last]);
    assert js[..|js| - 1] == MetricsJson(init) && js[|js| - 1] == MetricJson(last);
  }

  lemma IndexNothing()
    ensures ByHost(MetricsJson([])) == Some(map[]) && Indexes([], map[])
  {
    hide MetricJson, HostOf;
    assert MetricsJson([]) == [];
  }

  lemma {:induction false} IndexMetrics(ms: seq<Metric>)
    requires forall i, j :: 0 <= i < j < |ms| ==> ms[i].host != ms[j].host
    ensures ByHost(MetricsJson(ms)).Some? && Indexes(ms, ByHost(MetricsJson(ms)).value)
  {
    hide MetricJson, HostOf, Indexes, ByHost, MetricsJson, MetricFields;
    if ms == [] {
      IndexNothing();
    } else {
      var init, last := ms[..|ms| - 1], ms[|ms| - 1];
      IndexMetrics(init);
      MetricHost(last);
      ByHostSnoc(init, last);
      IndexesSnoc(init, last, ByHost(MetricsJson(init)).value);
      assert ms == init + [last];
    }
  }

  ghost predicate Keyed(latest: map<string, Metric>) {
    forall h :: h in latest ==> latest[h].host == h
  }

  lemma ListingComplete(latest: map<string, Metric>)
    requires Keyed(latest)
    ensures var ms := Listing(latest);
            && (forall i, j :: 0 <= i < j < |ms| ==> ms[i].host != ms[j].host)
            && (forall i :: 0 <= i < |ms| ==> ms[i].host in latest && ms[i] == latest[ms[i].host])
            && (forall h :: h in latest ==> exists i :: 0 <= i < |ms| && ms[i].host == h)
  {
    var hs, ms := Ordered(latest.Keys), Listing(latest);
    forall i, j | 0 <= i < j < |ms|
      ensures ms[i].host != ms[j].host
    {
      assert Less(hs[i], hs[j]);
      LessTotal(hs[i], hs[i]);
    }
    forall h | h in latest
      ensures exists i :: 0 <= i < |ms| && ms[i].host == h
    {
      assert h in hs;
      var i :| 0 <= i < |hs| && hs[i] == h;
      assert ms[i].host == h;
    }
  }

  lemma IndexesPrinted(latest: map<string, Metric>, ms: seq<Metric>, r: map<string, Json>)
    requires Indexes(ms, r)
    requires forall i :: 0 <= i < |ms| ==> ms[i].host in latest && ms[i] == latest[ms[i].host]
    requires forall h :: h in latest ==> exists i :: 0 <= i < |ms| && ms[i].host == h
    ensures r == Printed(latest)
  {
    hide MetricJson;
    forall h
      ensures h in r <==> h in latest
      ensures h in latest ==> r[h] == MetricJson(latest[h])
    {
      if h in latest {
        var i :| 0 <= i < |ms| && ms[i].host == h;
      }
    }
  }

  lemma ListingIndexed(latest: map<string, Metric>)
    requires Keyed(latest)
    ensures ByHost(MetricsJson(Listing(latest))) == Some(Printed(latest))
  {
    hide Listing, MetricJson, MetricsJson, ByHost, Indexes, Printed;
    ListingComplete(latest);
    var ms := Listing(latest);
    IndexMetrics(ms);
    IndexesPrinted(latest, ms, ByHost(MetricsJson(ms)).value);
  }

  lemma SnapshotEffect(stamp: string, latest: map<string, Metric>)
    requires Clean(stamp) && Keyed(latest) && forall h :: h in latest ==> CleanMetric(latest[h])
    ensures ShowsAll(SnapshotText(stamp, latest), latest) && KeepsRules(SnapshotText(stamp, latest))
    ensures All(SnapshotText(stamp, latest), NotNewline) && AlertData(SnapshotText(stamp, latest)) == None
  {
    hide Loads, HandleText, Get, All, Shaped, CleanJson, Render, MetricsJson, CleanMetric, ByHost, Printed, Clean;
    var ms := Listing(latest);
    ListingComplete(latest);
    ListingIndexed(latest);
    SnapshotEvent(stamp, ms);
    var text, j := SnapshotText(stamp, latest), SnapshotEventJson(stamp, ms);
    forall b, env
      ensures HandleText(Running(b), text, env) == HandleEvent(b, j, env) && Loads(text) == Some(j) && All(text, NotNewline)
    {
      EventHandled(text, j, b, env);
    }
    assert HandleText(Running(Board(false, None, map[], [], [], j, j)), text, QUIET).Running?;
  }
}
