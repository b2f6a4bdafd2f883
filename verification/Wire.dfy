/** The messages on the wire: what the printers write and what the agent's payload means to the
    server. */
module Wire {
  import opened Text
  import opened Decimal
  import opened Json
  import opened Fields
  import opened Records

  // ---- messages as JSON values --------------------------------------------------------

  function Str(name: string, text: string): Field { Field(name, JStr(text)) }

  function Num(name: string, d: Double): Field { Field(name, JNum(FormatDouble(d))) }

  function Int(name: string, n: int): Field { Field(name, JNum(IntText(n))) }

  function IdentityFields(m: Metric): seq<Field> {
    [Str("host", m.host), Str("timestamp", m.timestamp)]
  }

  function PercentFields(m: Metric): seq<Field> {
    [Num("cpu_percent", m.cpuPercent), Num("memory_percent", m.memoryPercent), Num("disk_percent", m.diskPercent)]
  }

  function NetworkFields(m: Metric): seq<Field> {
    [Num("network_rx_kbps", m.networkRxKbps), Num("network_tx_kbps", m.networkTxKbps)]
  }

  function SizeFields(m: Metric): seq<Field> {
    [Int("memory_used_mb", m.memoryUsedMb), Int("memory_total_mb", m.memoryTotalMb),
     Int("disk_used_mb", m.diskUsedMb), Int("disk_total_mb", m.diskTotalMb)]
  }

  function MetricFields(m: Metric): seq<Field> {
    IdentityFields(m) + (PercentFields(m) + (NetworkFields(m) + SizeFields(m)))
  }

  function MetricJson(m: Metric): Json { JObj(MetricFields(m)) }

  function MetricsJson(ms: seq<Metric>): seq<Json> {
    seq(|ms|, i requires 0 <= i < |ms| => MetricJson(ms[i]))
  }

  function RuleJson(r: AlertRule): Json {
    JObj([Str("command", r.rawCommand), Str("metric_key", r.metricKey), Num("threshold", r.threshold)])
  }

  function RulesJson(rules: seq<AlertRule>): seq<Json> {
    seq(|rules|, i requires 0 <= i < |rules| => RuleJson(rules[i]))
  }

  function AlertSource(a: AlertEvent): seq<Field> {
    [Str("host", a.host), Str("timestamp", a.timestamp), Str("metric_key", a.metricKey),
     Str("display_metric", a.displayMetric)]
  }

  function AlertFinding(a: AlertEvent): seq<Field> {
    [Num("metric_value", a.metricValue), Num("threshold", a.threshold), Str("rule", a.rule), Str("message", a.message)]
  }

  function AlertJson(a: AlertEvent): Json {
    JObj(AlertSource(a) + AlertFinding(a))
  }

  function MetricEventJson(m: Metric): Json {
    JObj([Str("type", "metric"), Field("data", MetricJson(m))])
  }

  function SnapshotEventJson(stamp: string, ms: seq<Metric>): Json {
    JObj([Str("type", "snapshot"), Str("timestamp", stamp), Field("metrics", JArr(MetricsJson(ms)))])
  }

  function ChatEventJson(c: ChatMessage): Json {
    JObj([Str("type", "chat"), Str("from", c.sender), Str("text", c.text), Str("timestamp", c.timestamp)])
  }

  function AckEventJson(message: string): Json {
    JObj([Str("type", "ack"), Str("message", message)])
  }

  function ErrorEventJson(message: string): Json {
    JObj([Str("type", "error"), Str("message", message)])
  }

  function AlertEventJson(a: AlertEvent): Json {
    JObj([Str("type", "alert"), Field("data", AlertJson(a))])
  }

  function RulesEventJson(rules: seq<AlertRule>): Json {
    JObj([Str("type", "rules"), Field("items", JArr(RulesJson(rules)))])
  }

  // ---- every message survives printing when its strings do ------------------------------

  lemma FormatIsNumber(d: Double)
    ensures IsNumber(FormatDouble(d)) && All(FormatDouble(d), NotQuote)
    ensures FormatDouble(d) != [] && !IsSpace(FormatDouble(d)[0])
  {
    var whole, fraction, body := FormatParts(d);
    var sign := if d.negative then "-" else "";
    assert NumberParts(FormatDouble(d), sign, body, whole, fraction);
    AllConcat(whole, ".", NotQuote);
    AllConcat(whole + ".", fraction, NotQuote);
    AllConcat(sign, body, NotQuote);
    assert FormatDouble(d)[0] == if d.negative then '-' else whole[0];
  }

  lemma IntIsNumber(n: int)
    ensures IsNumber(IntText(n)) && All(IntText(n), NotQuote)
    ensures IntText(n) != [] && !IsSpace(IntText(n)[0])
  {
    var body := NatText(if n < 0 then -n else n);
    var sign := if n < 0 then "-" else "";
    assert IntText(n) == sign + body;
    assert DecimalParts(body, body, "");
    assert NumberParts(IntText(n), sign, body, body, "");
    AllConcat(sign, body, NotQuote);
  }

  ghost predicate CleanMetric(m: Metric) {
    Clean(m.host) && Clean(m.timestamp)
  }

  lemma StrShape(name: string, text: string)
    requires All(name, IsWord)
    ensures ShapedField(Str(name, text))
    ensures CleanJson(Str(name, text).value) <==> Clean(text)
  {}

  lemma FieldShape(name: string, value: Json)
    requires All(name, IsWord) && Shaped(value)
    ensures ShapedField(Field(name, value))
  {}

  lemma NumShape(name: string, d: Double)
    requires All(name, IsWord)
    ensures ShapedField(Num(name, d)) && CleanJson(Num(name, d).value)
  {
    FormatIsNumber(d);
  }

  lemma IntShape(name: string, n: int)
    requires All(name, IsWord)
    ensures ShapedField(Int(name, n)) && CleanJson(Int(name, n).value)
  {
    IntIsNumber(n);
  }

  lemma IdentityShape(m: Metric)
    ensures ShapedFields(IdentityFields(m))
    ensures CleanFields(IdentityFields(m)) <==> CleanMetric(m)
  {
    hide ShapedField, ShapedFields, CleanFields, CleanJson;
    StrShape("host", m.host);
    StrShape("timestamp", m.timestamp);
    Fields2(Str("host", m.host), Str("timestamp", m.timestamp));
  }

  lemma PercentShape(m: Metric)
    ensures ShapedFields(PercentFields(m)) && CleanFields(PercentFields(m))
  {
    hide ShapedField, ShapedFields, CleanFields, CleanJson;
    NumShape("cpu_percent", m.cpuPercent);
    NumShape("memory_percent", m.memoryPercent);
    NumShape("disk_percent", m.diskPercent);
    Fields3(Num("cpu_percent", m.cpuPercent), Num("memory_percent", m.memoryPercent), Num("disk_percent", m.diskPercent));
  }

  lemma NetworkShape(m: Metric)
    ensures ShapedFields(NetworkFields(m)) && CleanFields(NetworkFields(m))
  {
    hide ShapedField, ShapedFields, CleanFields, CleanJson;
    NumShape("network_rx_kbps", m.networkRxKbps);
    NumShape("network_tx_kbps", m.networkTxKbps);
    Fields2(Num("network_rx_kbps", m.networkRxKbps), Num("network_tx_kbps", m.networkTxKbps));
  }

  lemma SizeNames()
    ensures All("memory_used_mb", IsWord) && All("memory_total_mb", IsWord)
    ensures All("disk_used_mb", IsWord) && All("disk_total_mb", IsWord)
  {}

  lemma SizeShape(m: Metric)
    ensures ShapedFields(SizeFields(m)) && CleanFields(SizeFields(m))
  {
    hide ShapedField, ShapedFields, CleanFields, CleanJson, All;
    SizeNames();
    IntShape("memory_used_mb", m.memoryUsedMb);
    IntShape("memory_total_mb", m.memoryTotalMb);
    IntShape("disk_used_mb", m.diskUsedMb);
    IntShape("disk_total_mb", m.diskTotalMb);
    Fields4(Int("memory_used_mb", m.memoryUsedMb), Int("memory_total_mb", m.memoryTotalMb),
            Int("disk_used_mb", m.diskUsedMb), Int("disk_total_mb", m.diskTotalMb));
  }

  /** A printed metric is readable exactly when its host and timestamp are clean. */
  lemma MetricShape(m: Metric)
    ensures Shaped(MetricJson(m))
    ensures CleanJson(MetricJson(m)) <==> CleanMetric(m)
  {
    hide ShapedFields, CleanFields, IdentityFields, PercentFields, NetworkFields, SizeFields, CleanMetric;
    IdentityShape(m);
    PercentShape(m);
    NetworkShape(m);
    SizeShape(m);
    FieldsConcat(NetworkFields(m), SizeFields(m));
    FieldsConcat(PercentFields(m), NetworkFields(m) + SizeFields(m));
    FieldsConcat(IdentityFields(m), PercentFields(m) + (NetworkFields(m) + SizeFields(m)));
  }

  ghost predicate CleanRule(r: AlertRule) {
    Clean(r.rawCommand) && Clean(r.metricKey)
  }

  lemma RuleShape(r: AlertRule)
    ensures Shaped(RuleJson(r))
    ensures CleanJson(RuleJson(r)) <==> CleanRule(r)
  {
    hide ShapedField, ShapedFields, CleanFields;
    StrShape("command", r.rawCommand);
    StrShape("metric_key", r.metricKey);
    NumShape("threshold", r.threshold);
    Fields3(Str("command", r.rawCommand), Str("metric_key", r.metricKey), Num("threshold", r.threshold));
  }

  ghost predicate CleanAlert(a: AlertEvent) {
    Clean(a.host) && Clean(a.timestamp) && Clean(a.metricKey) && Clean(a.displayMetric)
    && Clean(a.rule) && Clean(a.message)
  }

  lemma AlertSourceShape(a: AlertEvent)
    ensures ShapedFields(AlertSource(a))
    ensures CleanFields(AlertSource(a))
            <==> Clean(a.host) && Clean(a.timestamp) && Clean(a.metricKey) && Clean(a.displayMetric)
  {
    hide ShapedField, ShapedFields, CleanFields, CleanJson;
    StrShape("host", a.host);
    StrShape("timestamp", a.timestamp);
    StrShape("metric_key", a.metricKey);
    StrShape("display_metric", a.displayMetric);
    Fields4(Str("host", a.host), Str("timestamp", a.timestamp), Str("metric_key", a.metricKey),
            Str("display_metric", a.displayMetric));
  }

  lemma AlertFindingShape(a: AlertEvent)
    ensures ShapedFields(AlertFinding(a))
    ensures CleanFields(AlertFinding(a)) <==> Clean(a.rule) && Clean(a.message)
  {
    hide ShapedField, ShapedFields, CleanFields, CleanJson;
    NumShape("metric_value", a.metricValue);
    NumShape("threshold", a.threshold);
    StrShape("rule", a.rule);
    StrShape("message", a.message);
    Fields4(Num("metric_value", a.metricValue), Num("threshold", a.threshold), Str("rule", a.rule), Str("message", a.message));
  }

  lemma AlertShape(a: AlertEvent)
    ensures Shaped(AlertJson(a))
    ensures CleanJson(AlertJson(a)) <==> CleanAlert(a)
  {
    hide ShapedFields, CleanFields, AlertSource, AlertFinding;
    AlertSourceShape(a);
    AlertFindingShape(a);
    FieldsConcat(AlertSource(a), AlertFinding(a));
  }

  // ---- the seven events ----------------------------------------------------------------------

  lemma TypeShape(kind: string)
    requires All(kind, IsWord)
    ensures ShapedField(Str("type", kind)) && CleanJson(Str("type", kind).value)
  {
    WordEscape(kind);
    StrShape("type", kind);
  }

  /** An event of type `kind` with one payload field. */
  lemma Event2(kind: string, name: string, value: Json)
    requires All(kind, IsWord) && All(name, IsWord) && Shaped(value)
    ensures Shaped(JObj([Str("type", kind), Field(name, value)]))
    ensures CleanJson(JObj([Str("type", kind), Field(name, value)])) <==> CleanJson(value)
  {
    hide ShapedFields, CleanFields;
    TypeShape(kind);
    assert ShapedField(Field(name, value));
    Fields2(Str("type", kind), Field(name, value));
  }

  lemma MetricEventShape(m: Metric)
    ensures Shaped(MetricEventJson(m))
    ensures CleanJson(MetricEventJson(m)) <==> CleanMetric(m)
  {
    hide MetricJson, Shaped, CleanJson, CleanMetric;
    MetricShape(m);
    Event2("metric", "data", MetricJson(m));
  }

  lemma AlertEventShape(a: AlertEvent)
    ensures Shaped(AlertEventJson(a))
    ensures CleanJson(AlertEventJson(a)) <==> CleanAlert(a)
  {
    hide AlertJson, Shaped, CleanJson, CleanAlert;
    AlertShape(a);
    Event2("alert", "data", AlertJson(a));
  }

  lemma AckShape(message: string)
    ensures Shaped(AckEventJson(message)) && Shaped(ErrorEventJson(message))
    ensures CleanJson(AckEventJson(message)) <==> Clean(message)
    ensures CleanJson(ErrorEventJson(message)) <==> Clean(message)
  {
    Event2("ack", "message", JStr(message));
    Event2("error", "message", JStr(message));
    hide Shaped;
  }

  lemma RulesEventShape(rules: seq<AlertRule>)
    ensures Shaped(RulesEventJson(rules))
    ensures CleanJson(RulesEventJson(rules)) <==> forall i :: 0 <= i < |rules| ==> CleanRule(rules[i])
  {
    hide RuleJson, CleanRule;
    forall i | 0 <= i < |rules|
      ensures Shaped(RulesJson(rules)[i]) && (CleanJson(RulesJson(rules)[i]) <==> CleanRule(rules[i]))
    {
      RuleShape(rules[i]);
    }
    Event2("rules", "items", JArr(RulesJson(rules)));
  }

  lemma ChatShape(c: ChatMessage)
    ensures Shaped(ChatEventJson(c))
    ensures CleanJson(ChatEventJson(c)) <==> Clean(c.sender) && Clean(c.text) && Clean(c.timestamp)
  {
    hide ShapedField, ShapedFields, CleanFields;
    TypeShape("chat");
    StrShape("from", c.sender);
    StrShape("text", c.text);
    StrShape("timestamp", c.timestamp);
    Fields4(Str("type", "chat"), Str("from", c.sender), Str("text", c.text), Str("timestamp", c.timestamp));
  }

  lemma MetricsShape(ms: seq<Metric>)
    ensures Shaped(JArr(MetricsJson(ms)))
    ensures CleanJson(JArr(MetricsJson(ms))) <==> forall i :: 0 <= i < |ms| ==> CleanMetric(ms[i])
  {
    hide MetricJson, CleanMetric;
    forall i | 0 <= i < |ms|
      ensures Shaped(MetricsJson(ms)[i]) && (CleanJson(MetricsJson(ms)[i]) <==> CleanMetric(ms[i]))
    {
      MetricShape(ms[i]);
    }
  }

  lemma SnapshotShape(stamp: string, ms: seq<Metric>)
    ensures Shaped(SnapshotEventJson(stamp, ms))
    ensures CleanJson(SnapshotEventJson(stamp, ms)) <==> Clean(stamp) && forall i :: 0 <= i < |ms| ==> CleanMetric(ms[i])
  {
    hide ShapedField, ShapedFields, CleanFields, MetricsJson, CleanMetric;
    MetricsShape(ms);
    TypeShape("snapshot");
    StrShape("timestamp", stamp);
    FieldShape("metrics", JArr(MetricsJson(ms)));
    Fields3(Str("type", "snapshot"), Str("timestamp", stamp), Field("metrics", JArr(MetricsJson(ms))));
  }

  // ---- the printers ---------------------------------------------------------------------

  /** An object under construction, each field followed by a comma. */
  function Open(fields: seq<Field>): string {
    if fields == [] then "{" else "{" + (RenderFields(fields) + ",")
  }

  lemma OpenAppend(fields: seq<Field>, f: Field)
    ensures Open(fields) + RenderField(f) + "," == Open(fields + [f])
    ensures Open(fields) + RenderField(f) + "}" == Render(JObj(fields + [f]))
  {
    if fields == [] {
      assert fields + [f] == [f];
    } else {
      RenderFieldsAppend(fields, f);
      assert Open(fields) + RenderField(f) == "{" + RenderFields(fields + [f]);
    }
  }

  method PutText(out: string, ghost fields: seq<Field>, name: string, value: string) returns (next: string)
    requires out == Open(fields)
    ensures next == Open(fields + [Str(name, value)])
  {
    var escaped := EscapeJson(value);
    next := out + (Quoted(name) + (":" + Quoted(escaped))) + ",";
    OpenAppend(fields, Str(name, value));
  }

  method PutNumber(out: string, ghost fields: seq<Field>, name: string, value: Double) returns (next: string)
    requires out == Open(fields)
    ensures next == Open(fields + [Num(name, value)])
  {
    next := out + (Quoted(name) + (":" + FormatDouble(value))) + ",";
    OpenAppend(fields, Num(name, value));
  }

  method PutInteger(out: string, ghost fields: seq<Field>, name: string, value: int) returns (next: string)
    requires out == Open(fields)
    ensures next == Open(fields + [Int(name, value)])
  {
    next := out + (Quoted(name) + (":" + IntText(value))) + ",";
    OpenAppend(fields, Int(name, value));
  }

  method PutIdentity(m: Metric) returns (out: string)
    ensures out == Open(IdentityFields(m))
  {
    out := PutText("{", [], "host", m.host);
    out := PutText(out, [] + [Str("host", m.host)], "timestamp", m.timestamp);
    assert [] + [Str("host", m.host)] + [Str("timestamp", m.timestamp)] == IdentityFields(m);
  }

  method PutPercents(out: string, ghost fields: seq<Field>, m: Metric) returns (next: string)
    requires out == Open(fields)
    ensures next == Open(fields + PercentFields(m))
  {
    next := PutNumber(out, fields, "cpu_percent", m.cpuPercent);
    ghost var one := fields + [Num("cpu_percent", m.cpuPercent)];
    next := PutNumber(next, one, "memory_percent", m.memoryPercent);
    ghost var two := one + [Num("memory_percent", m.memoryPercent)];
    next := PutNumber(next, two, "disk_percent", m.diskPercent);
    assert two + [Num("disk_percent", m.diskPercent)] == fields + PercentFields(m);
  }

  method PutNetwork(out: string, ghost fields: seq<Field>, m: Metric) returns (next: string)
    requires out == Open(fields)
    ensures next == Open(fields + NetworkFields(m))
  {
    next := PutNumber(out, fields, "network_rx_kbps", m.networkRxKbps);
    ghost var one := fields + [Num("network_rx_kbps", m.networkRxKbps)];
    next := PutNumber(next, one, "network_tx_kbps", m.networkTxKbps);
    assert one + [Num("network_tx_kbps", m.networkTxKbps)] == fields + NetworkFields(m);
  }

  method PutSizes(out: string, ghost fields: seq<Field>, m: Metric) returns (next: string)
    requires out == Open(fields)
    ensures next == Render(JObj(fields + SizeFields(m)))
  {
    next := PutInteger(out, fields, "memory_used_mb", m.memoryUsedMb);
    ghost var one := fields + [Int("memory_used_mb", m.memoryUsedMb)];
    next := PutInteger(next, one, "memory_total_mb", m.memoryTotalMb);
    ghost var two := one + [Int("memory_total_mb", m.memoryTotalMb)];
    next := PutInteger(next, two, "disk_used_mb", m.diskUsedMb);
    ghost var three := two + [Int("disk_used_mb", m.diskUsedMb)];
    OpenAppend(three, Int("disk_total_mb", m.diskTotalMb));
    next := next + (Quoted("disk_total_mb") + (":" + IntText(m.diskTotalMb))) + "}";
    assert three + [Int("disk_total_mb", m.diskTotalMb)] == fields + SizeFields(m);
  }

  lemma Concat4<T>(a: seq<T>, b: seq<T>, c: seq<T>, d: seq<T>)
    ensures a + b + c + d == a + (b + (c + d))
  {}

  /** `metric_data_to_json`: the stream it builds field by field is the rendered value. */
  method MetricDataToJson(m: Metric) returns (out: string)
    ensures out == Render(MetricJson(m))
  {
    out := PutIdentity(m);
    hide IdentityFields, PercentFields, NetworkFields, SizeFields, RenderFields, Open;
    ghost var fields := IdentityFields(m);
    out := PutPercents(out, fields, m);
    out := PutNetwork(out, fields + PercentFields(m), m);
    out := PutSizes(out, fields + PercentFields(m) + NetworkFields(m), m);
    Concat4(IdentityFields(m), PercentFields(m), NetworkFields(m), SizeFields(m));
  }

  /** One turn of a comma-separated printing loop. */
  method PutItem(out: string, first: bool, text: string, ghost done: seq<Json>, ghost item: Json) returns (next: string)
    requires out == RenderItems(done) && (first <==> done == []) && text == Render(item)
    ensures next == RenderItems(done + [item])
  {
    RenderItemsAppend(done, item);
    next := if first then text else out + ("," + text);
  }

  /** The loop of `snapshot_event_to_json`, over the metrics in host order. */
  method PrintMetrics(ms: seq<Metric>) returns (out: string)
    ensures out == RenderItems(MetricsJson(ms))
  {
    hide MetricJson;
    out := "";
    ghost var items := MetricsJson(ms);
    for i := 0 to |ms|
      invariant out == RenderItems(items[..i])
    {
      var data := MetricDataToJson(ms[i]);
      out := PutItem(out, i == 0, data, items[..i], items[i]);
      assert items[..i + 1] == items[..i] + [items[i]];
    }
    assert items[..|ms|] == items;
  }

  method RuleToJson(r: AlertRule) returns (out: string)
    ensures out == Render(RuleJson(r))
  {
    out := PutText("{", [], "command", r.rawCommand);
    ghost var fields := [] + [Str("command", r.rawCommand)];
    out := PutText(out, fields, "metric_key", r.metricKey);
    fields := fields + [Str("metric_key", r.metricKey)];
    OpenAppend(fields, Num("threshold", r.threshold));
    out := out + (Quoted("threshold") + (":" + FormatDouble(r.threshold))) + "}";
    assert fields + [Num("threshold", r.threshold)]
        == [Str("command", r.rawCommand), Str("metric_key", r.metricKey), Num("threshold", r.threshold)];
  }

  /** The loop of `rules_event_to_json`, over the rules in registration order. */
  method PrintRules(rules: seq<AlertRule>) returns (out: string)
    ensures out == RenderItems(RulesJson(rules))
  {
    hide RuleJson;
    out := "";
    ghost var items := RulesJson(rules);
    for i := 0 to |rules|
      invariant out == RenderItems(items[..i])
    {
      var data := RuleToJson(rules[i]);
      out := PutItem(out, i == 0, data, items[..i], items[i]);
      assert items[..i + 1] == items[..i] + [items[i]];
    }
    assert items[..|rules|] == items;
  }

  // ---- agent to server --------------------------------------------------------------------

  /** `metrics_payload`: the data object with a type in front. */
  function MetricsPayload(m: Metric): string {
    "{" + (RenderField(Str("type", "metrics")) + ("," + Render(MetricJson(m))[1..]))
  }

  function PayloadFields(m: Metric): seq<Field> {
    [Str("type", "metrics")] + MetricFields(m)
  }

  lemma PayloadHead(f: Field, rest: seq<Field>)
    requires rest != []
    ensures RenderFields([f] + rest) == RenderField(f) + ("," + RenderFields(rest))
  {
    hide RenderField;
    assert ([f] + rest)[1..] == rest;
  }

  lemma ObjectTail(fields: seq<Field>)
    ensures Render(JObj(fields))[1..] == RenderFields(fields) + "}"
  {
    hide RenderFields;
  }

  lemma PayloadIsObject(m: Metric)
    ensures MetricsPayload(m) == "{" + (RenderFields(PayloadFields(m)) + "}")
  {
    assert |MetricFields(m)| == 11;
    hide MetricFields, RenderField, RenderFields, Render;
    PayloadHead(Str("type", "metrics"), MetricFields(m));
    ObjectTail(MetricFields(m));
    Nest(RenderField(Str("type", "metrics")), ",", RenderFields(MetricFields(m)), "}");
  }

  /** The nine reads of `handle_line`, in order. */
  function DecodeMetric(line: string, declaredHost: string, now: string): Metric {
    Metric(
      JsonGetString(line, "host").Or(declaredHost),
      JsonGetString(line, "timestamp").Or(now),
      JsonGetNumber(line, "cpu_percent").Or(ZERO),
      JsonGetNumber(line, "memory_percent").Or(ZERO),
      JsonGetNumber(line, "disk_percent").Or(ZERO),
      JsonGetNumber(line, "network_rx_kbps").Or(ZERO),
      JsonGetNumber(line, "network_tx_kbps").Or(ZERO),
      JsonGetInteger(line, "memory_used_mb").Or(0),
      JsonGetInteger(line, "memory_total_mb").Or(0),
      JsonGetInteger(line, "disk_used_mb").Or(0),
      JsonGetInteger(line, "disk_total_mb").Or(0))
  }

  /** Fields that can be told apart and passed over by the extractors. */
  ghost predicate Separable(fields: seq<Field>, k: nat) {
    && k < |fields| && IsKey(fields[k].name)
    && (forall i :: 0 <= i < k ==> Flat(fields[i]) && fields[i].name != fields[k].name)
  }

  function ObjectText(fields: seq<Field>): string {
    "{" + (RenderFields(fields) + "}")
  }

  lemma SkipBrace(kind: Kind, fields: seq<Field>, key: string)
    ensures Search(kind, ObjectText(fields), key) == Search(kind, RenderFields(fields) + "}", key)
  {
    SkipPlain(kind, "{", RenderFields(fields) + "}", key);
  }

  lemma GetText(fields: seq<Field>, k: nat, s: string)
    requires Separable(fields, k) && fields[k].value == JStr(s) && All(s, NotQuote)
    ensures JsonGetString(ObjectText(fields), fields[k].name) == Some(Escape(s))
  {
    SkipBrace(TextValue, fields, fields[k].name);
    var end := SearchField(TextValue, fields, k, "}");
    EscapeQuoteFree(s);
    CaptureText(s, end);
  }

  lemma GetNumber(fields: seq<Field>, k: nat, d: Double)
    requires Separable(fields, k) && fields[k].value == JNum(FormatDouble(d))
    ensures JsonGetNumber(ObjectText(fields), fields[k].name) == Some(Rounded(d))
  {
    FormatIsNumber(d);
    SkipBrace(NumberValue, fields, fields[k].name);
    var end := SearchField(NumberValue, fields, k, "}");
    CaptureNumber(d, end);
    ReadNumber(d);
  }

  lemma GetInteger(fields: seq<Field>, k: nat, n: int)
    requires Separable(fields, k) && fields[k].value == JNum(IntText(n))
    ensures JsonGetInteger(ObjectText(fields), fields[k].name) == Some(n)
  {
    IntIsNumber(n);
    SkipBrace(IntegerValue, fields, fields[k].name);
    var end := SearchField(IntegerValue, fields, k, "}");
    CaptureInteger(n, end);
  }

  // ---- the round trip ----------------------------------------------------------------------

  const NAMES: seq<string> := [
    "type", "host", "timestamp", "cpu_percent", "memory_percent", "disk_percent", "network_rx_kbps",
    "network_tx_kbps", "memory_used_mb", "memory_total_mb", "disk_used_mb", "disk_total_mb"]

  lemma NamesDistinct(i: nat, j: nat)
    requires i < j < 12
    ensures NAMES[i] != NAMES[j]
  {
    assert "type"[0] != "host"[0];
    assert "memory_percent"[7] != "memory_used_mb"[7];
    assert "disk_percent"[5] != "disk_used_mb"[5];
    assert "network_rx_kbps"[8] != "network_tx_kbps"[8];
    assert "network_rx_kbps"[0] != "memory_total_mb"[0] && "network_tx_kbps"[0] != "memory_total_mb"[0];
  }

  lemma NamesAreKeys(i: nat)
    requires i < 12
    ensures IsKey(NAMES[i])
  {
    hide IsKey;
    TextKeys();
    NumberKeys();
    SizeKeys();
  }

  lemma TextKeys()
    ensures IsKey("type") && IsKey("host") && IsKey("timestamp")
  {}

  lemma NumberKeys()
    ensures IsKey("cpu_percent") && IsKey("memory_percent") && IsKey("disk_percent")
    ensures IsKey("network_rx_kbps") && IsKey("network_tx_kbps")
  {}

  lemma SizeKeys()
    ensures IsKey("memory_used_mb") && IsKey("memory_total_mb") && IsKey("disk_used_mb") && IsKey("disk_total_mb")
  {}

  /** The value of each payload field, in the order of the names. */
  function PayloadValue(m: Metric, i: nat): Json
    requires i < 12
  {
    if i == 0 then JStr("metrics")
    else if i == 1 then JStr(m.host)
    else if i == 2 then JStr(m.timestamp)
    else if i == 3 then JNum(FormatDouble(m.cpuPercent))
    else if i == 4 then JNum(FormatDouble(m.memoryPercent))
    else if i == 5 then JNum(FormatDouble(m.diskPercent))
    else if i == 6 then JNum(FormatDouble(m.networkRxKbps))
    else if i == 7 then JNum(FormatDouble(m.networkTxKbps))
    else if i == 8 then JNum(IntText(m.memoryUsedMb))
    else if i == 9 then JNum(IntText(m.memoryTotalMb))
    else if i == 10 then JNum(IntText(m.diskUsedMb))
    else JNum(IntText(m.diskTotalMb))
  }

  lemma FiveParts(h: seq<Field>, a: seq<Field>, b: seq<Field>, c: seq<Field>, d: seq<Field>, i: nat)
    requires |h| == 1 && |a| == 2 && |b| == 3 && |c| == 2 && |d| == 4 && i < 12
    ensures var all := h + (a + (b + (c + d)));
            && |all| == 12
            && all[i] == if i < 1 then h[i] else if i < 3 then a[i - 1] else if i < 6 then b[i - 3]
                         else if i < 8 then c[i - 6] else d[i - 8]
  {}

  lemma PayloadField(m: Metric, i: nat)
    requires i < 12
    ensures |PayloadFields(m)| == 12 && PayloadFields(m)[i] == Field(NAMES[i], PayloadValue(m, i))
  {
    hide FormatDouble, IntText;
    FiveParts([Str("type", "metrics")], IdentityFields(m), PercentFields(m), NetworkFields(m), SizeFields(m), i);
  }

  ghost predicate FlatMetric(m: Metric) {
    All(m.host, NotQuote) && All(m.timestamp, NotQuote)
  }

  lemma PayloadFlat(m: Metric, i: nat)
    requires i < 12 && (i == 1 ==> All(m.host, NotQuote)) && (i == 2 ==> All(m.timestamp, NotQuote))
    ensures Flat(Field(NAMES[i], PayloadValue(m, i)))
  {
    hide FormatDouble, IntText, NAMES, All, IsNumber;
    NamesAreKeys(i);
    MetricsWord();
    FormatIsNumber(m.cpuPercent);
    FormatIsNumber(m.memoryPercent);
    FormatIsNumber(m.diskPercent);
    FormatIsNumber(m.networkRxKbps);
    FormatIsNumber(m.networkTxKbps);
    IntIsNumber(m.memoryUsedMb);
    IntIsNumber(m.memoryTotalMb);
    IntIsNumber(m.diskUsedMb);
    IntIsNumber(m.diskTotalMb);
  }

  lemma MetricsWord()
    ensures All("metrics", NotQuote) && All("metrics", Verbatim)
  {}

  lemma VerbatimQuoteFree(s: string)
    requires All(s, Verbatim)
    ensures All(s, NotQuote)
  {}

  lemma VerbatimIsFlat(m: Metric)
    requires VerbatimMetric(m)
    ensures FlatMetric(m)
  {}

  /** Up to any field, the payload of a quote-free metric can be told apart by name. */
  lemma PayloadSeparable(m: Metric, k: nat)
    requires k < 12 && (k > 1 ==> All(m.host, NotQuote)) && (k > 2 ==> All(m.timestamp, NotQuote))
    ensures Separable(PayloadFields(m), k)
    ensures PayloadFields(m)[k] == Field(NAMES[k], PayloadValue(m, k))
  {
    hide PayloadFields, NAMES, PayloadValue, Flat;
    PayloadField(m, k);
    NamesAreKeys(k);
    forall i: nat | i < k
      ensures Flat(PayloadFields(m)[i]) && PayloadFields(m)[i].name != PayloadFields(m)[k].name
    {
      PayloadField(m, i);
      PayloadFlat(m, i);
      NamesDistinct(i, k);
    }
  }

  lemma PayloadText(m: Metric)
    ensures MetricsPayload(m) == ObjectText(PayloadFields(m))
  {
    PayloadIsObject(m);
  }

  lemma RecoverText(m: Metric, k: nat, s: string)
    requires k < 12 && (k > 1 ==> All(m.host, NotQuote)) && (k > 2 ==> All(m.timestamp, NotQuote))
    requires PayloadValue(m, k) == JStr(s) && All(s, Verbatim)
    ensures JsonGetString(MetricsPayload(m), NAMES[k]) == Some(s)
  {
    EscapeIdentity(s);
    hide PayloadFields, NAMES, PayloadValue, MetricsPayload, ObjectText, JsonGetString, Escape;
    PayloadText(m);
    PayloadSeparable(m, k);
    GetText(PayloadFields(m), k, s);
  }

  lemma RecoverNumber(m: Metric, k: nat, d: Double)
    requires 2 < k < 12 && FlatMetric(m) && PayloadValue(m, k) == JNum(FormatDouble(d))
    ensures JsonGetNumber(MetricsPayload(m), NAMES[k]) == Some(Rounded(d))
  {
    hide PayloadFields, NAMES, PayloadValue, MetricsPayload, ObjectText, JsonGetNumber, FormatDouble;
    PayloadText(m);
    PayloadSeparable(m, k);
    GetNumber(PayloadFields(m), k, d);
  }

  lemma RecoverInteger(m: Metric, k: nat, n: int)
    requires 2 < k < 12 && FlatMetric(m) && PayloadValue(m, k) == JNum(IntText(n))
    ensures JsonGetInteger(MetricsPayload(m), NAMES[k]) == Some(n)
  {
    hide PayloadFields, NAMES, PayloadValue, MetricsPayload, ObjectText, JsonGetInteger, IntText;
    PayloadText(m);
    PayloadSeparable(m, k);
    GetInteger(PayloadFields(m), k, n);
  }

  lemma RecoverNumbers(m: Metric, fallbackHost: string, now: string)
    requires FlatMetric(m)
    ensures var r := DecodeMetric(MetricsPayload(m), fallbackHost, now);
            && r.cpuPercent == Rounded(m.cpuPercent) && r.memoryPercent == Rounded(m.memoryPercent)
            && r.diskPercent == Rounded(m.diskPercent) && r.networkRxKbps == Rounded(m.networkRxKbps)
            && r.networkTxKbps == Rounded(m.networkTxKbps)
  {
    hide FlatMetric, FormatDouble, MetricsPayload, JsonGetNumber, JsonGetString, JsonGetInteger, Rounded;
    RecoverNumber(m, 3, m.cpuPercent);
    RecoverNumber(m, 4, m.memoryPercent);
    RecoverNumber(m, 5, m.diskPercent);
    RecoverNumber(m, 6, m.networkRxKbps);
    RecoverNumber(m, 7, m.networkTxKbps);
  }

  lemma RecoverIntegers(m: Metric, fallbackHost: string, now: string)
    requires FlatMetric(m)
    ensures var r := DecodeMetric(MetricsPayload(m), fallbackHost, now);
            && r.memoryUsedMb == m.memoryUsedMb && r.memoryTotalMb == m.memoryTotalMb
            && r.diskUsedMb == m.diskUsedMb && r.diskTotalMb == m.diskTotalMb
  {
    hide FlatMetric, IntText, MetricsPayload, JsonGetNumber, JsonGetString, JsonGetInteger;
    RecoverInteger(m, 8, m.memoryUsedMb);
    RecoverInteger(m, 9, m.memoryTotalMb);
    RecoverInteger(m, 10, m.diskUsedMb);
    RecoverInteger(m, 11, m.diskTotalMb);
  }

  /** The host and timestamp need no escaping. */
  ghost predicate VerbatimMetric(m: Metric) {
    All(m.host, Verbatim) && All(m.timestamp, Verbatim)
  }

  /** Agent to server: the leftmost-match extractors applied to the agent's payload give the type,
      the host, the timestamp, the four integers and every number at two decimals. */
  lemma AgentRoundTrip(m: Metric, fallbackHost: string, now: string)
    requires VerbatimMetric(m)
    ensures JsonGetString(MetricsPayload(m), "type") == Some("metrics")
    ensures DecodeMetric(MetricsPayload(m), fallbackHost, now) == OnTheWire(m)
  {
    hide FlatMetric, All, MetricsPayload, JsonGetString, JsonGetNumber, JsonGetInteger, Rounded;
    MetricsWord();
    VerbatimIsFlat(m);
    VerbatimQuoteFree(m.host);
    RecoverText(m, 0, "metrics");
    RecoverText(m, 1, m.host);
    RecoverText(m, 2, m.timestamp);
    RecoverNumbers(m, fallbackHost, now);
    RecoverIntegers(m, fallbackHost, now);
  }

  /** Printing the decoded metric gives the text the agent printed. */
  lemma ReprintStable(m: Metric)
    ensures MetricJson(OnTheWire(m)) == MetricJson(m)
  {
    FormatStable(m.cpuPercent);
    FormatStable(m.memoryPercent);
    FormatStable(m.diskPercent);
    FormatStable(m.networkRxKbps);
    FormatStable(m.networkTxKbps);
    hide FormatDouble, Rounded;
    var w := OnTheWire(m);
    assert PercentFields(w) == PercentFields(m);
    assert NetworkFields(w) == NetworkFields(m);
  }

  // ---- exactly which hosts survive the first hop ---------------------------------------------

  /** Any string field captures a quote-free prefix of its printed text. */
  lemma CaptureIsQuoteFree(s: string, end: string)
    ensures Capture(TextValue, Render(JStr(s)) + end).Some?
    ensures All(Capture(TextValue, Render(JStr(s)) + end).value, NotQuote)
  {
    hide Escape;
    var u := Render(JStr(s)) + end;
    assert u[1..] == Escape(s) + ("\"" + end);
    var n := Span(u[1..], NotQuote);
    SpanBound(u[1..], NotQuote, |Escape(s)|);
    assert u[1..n + 1] == u[1..][..n];
  }

  /** The server's copy of the host equals the agent's exactly when the name has no quote,
      backslash, newline, carriage return or tab: `json_get_string` does not undo escapes. */
  lemma HostSurvives(m: Metric)
    ensures JsonGetString(MetricsPayload(m), "host") == Some(m.host) <==> All(m.host, Verbatim)
  {
    if All(m.host, Verbatim) {
      RecoverHost(m);
    } else if JsonGetString(MetricsPayload(m), "host") == Some(m.host) {
      HostCapture(m);
      EscapeQuoteFree(m.host);
      HostIfQuoteFree(m);
      EscapeIdentity(m.host);
    }
  }

  lemma RecoverHost(m: Metric)
    requires All(m.host, Verbatim)
    ensures JsonGetString(MetricsPayload(m), "host") == Some(m.host)
  {
    hide MetricsPayload, JsonGetString, All;
    RecoverText(m, 1, m.host);
  }

  lemma HostIfQuoteFree(m: Metric)
    requires All(m.host, NotQuote)
    ensures JsonGetString(MetricsPayload(m), "host") == Some(Escape(m.host))
  {
    hide PayloadFields, MetricsPayload, ObjectText, JsonGetString, Escape, All;
    PayloadText(m);
    PayloadSeparable(m, 1);
    GetText(PayloadFields(m), 1, m.host);
  }

  lemma HostCapture(m: Metric)
    ensures JsonGetString(MetricsPayload(m), "host").Some?
    ensures All(JsonGetString(MetricsPayload(m), "host").value, NotQuote)
  {
    hide PayloadFields, MetricsPayload, Escape, All, Capture, Search, RenderFields;
    PayloadText(m);
    PayloadSeparable(m, 1);
    SkipBrace(TextValue, PayloadFields(m), "host");
    var end := SearchField(TextValue, PayloadFields(m), 1, "}");
    CaptureIsQuoteFree(m.host, end);
  }
}
