/** What each remaining event puts on a dashboard's board: alerts, chat lines, acknowledgements, errors
    and the entries of the rule list. */
module Delivery {
  import opened Text
  import opened Decimal
  import opened Json
  import opened Records
  import opened Wire
  import opened Server
  import opened Dashboard
  import opened Replication

  /** The alert printed by the server is appended as one object, and the window cut to its last 50. */
  lemma AlertArrives(a: AlertEvent, b: Board, env: Env)
    requires CleanAlert(a)
    ensures HandleText(Running(b), AlertText(a), env) ==
            Running(b.(lastEvent := Some(env.now), alerts := Last(b.alerts + [AlertJson(a)], ALERT_WINDOW),
                       aws := env.upload))
  {
    hide HandleText, AlertJson, AlertText, CleanAlert, Get, Last, Shaped, CleanJson, Render, AlertEventJson;
    AlertEventKind(a);
    EventHandled(AlertText(a), AlertEventJson(a), b, env);
  }

  /** An entry of the rule list shows command, metric key and threshold. */
  lemma RuleFieldsByName(r: AlertRule)
    ensures var fields := RuleJson(r).fields;
            && Get(fields, "command") == Some(JStr(r.rawCommand))
            && Get(fields, "metric_key") == Some(JStr(r.metricKey))
            && Get(fields, "threshold") == Some(JNum(FormatDouble(r.threshold)))
  {
    hide Get, FormatDouble;
    var fields := RuleJson(r).fields;
    assert fields[0].name == "command" && fields[1].name == "metric_key" && fields[2].name == "threshold";
    assert "command"[0] == 'c' && "metric_key"[0] == 'm' && "threshold"[0] == 't';
    GetAt(fields, 0, "command");
    GetAt(fields, 1, "metric_key");
    GetAt(fields, 2, "threshold");
  }

  lemma ChatFields(c: ChatMessage, now: string)
    ensures ChatOf(ChatEventJson(c).fields, now) == ChatItem(JStr(c.sender), JStr(c.text), JStr(c.timestamp))
  {
    hide Get;
    var fields := ChatEventJson(c).fields;
    assert fields[0].name == "type" && fields[1].name == "from" && fields[2].name == "text" && fields[3].name == "timestamp";
    assert "text"[1] == 'e' && "timestamp"[1] == 'i' && "from"[0] == 'f';
    GetAt(fields, 1, "from");
    GetAt(fields, 2, "text");
    GetAt(fields, 3, "timestamp");
  }

  /** A chat message arrives with its sender, text and time, and the window is cut to its last 80. */
  lemma ChatArrives(c: ChatMessage, b: Board, env: Env)
    requires Clean(c.sender) && Clean(c.text) && Clean(c.timestamp)
    ensures HandleText(Running(b), ChatText(c), env) ==
            Running(b.(lastEvent := Some(env.now),
                       chat := Last(b.chat + [ChatItem(JStr(c.sender), JStr(c.text), JStr(c.timestamp))], CHAT_WINDOW)))
  {
    hide HandleText, ChatText, Clean, Get, Last, Shaped, CleanJson, Render, ChatEventJson, ChatOf;
    ChatEvent(c);
    ChatFields(c, env.now);
    EventHandled(ChatText(c), ChatEventJson(c), b, env);
  }

  lemma NoticeFields(message: string, now: string)
    ensures NoticeOf("ack", AckEventJson(message).fields, now) == ChatItem(JStr("ack"), JStr(message), JStr(now))
    ensures NoticeOf("error", ErrorEventJson(message).fields, now) == ChatItem(JStr("error"), JStr(message), JStr(now))
  {
    hide Get;
    Get2(Str("type", "ack"), Str("message", message), "message");
    Get2(Str("type", "error"), Str("message", message), "message");
  }

  /** Acknowledgements and errors join the chat under their own names, at the reader's time. */
  lemma NoticeArrives(message: string, b: Board, env: Env)
    requires Clean(message)
    ensures HandleText(Running(b), AckText(message), env) ==
            Running(b.(lastEvent := Some(env.now),
                       chat := Last(b.chat + [ChatItem(JStr("ack"), JStr(message), JStr(env.now))], CHAT_WINDOW)))
    ensures HandleText(Running(b), ErrorText(message), env) ==
            Running(b.(lastEvent := Some(env.now),
                       chat := Last(b.chat + [ChatItem(JStr("error"), JStr(message), JStr(env.now))], CHAT_WINDOW)))
  {
    hide HandleText, AckText, ErrorText, Clean, Get, Last, Shaped, CleanJson, Render, AckEventJson, ErrorEventJson, NoticeOf;
    NoticeEvent(message);
    NoticeFields(message, env.now);
    EventHandled(AckText(message), AckEventJson(message), b, env);
    EventHandled(ErrorText(message), ErrorEventJson(message), b, env);
  }

  /** A reader finds time and metrics of a snapshot by name. */
  lemma SnapshotFieldsByName(stamp: string, ms: seq<Metric>)
    ensures var fields := SnapshotEventJson(stamp, ms).fields;
            Get(fields, "timestamp") == Some(JStr(stamp)) && Get(fields, "metrics") == Some(JArr(MetricsJson(ms)))
  {
    hide Get, MetricsJson;
    var fields := SnapshotEventJson(stamp, ms).fields;
    assert fields[0].name == "type" && fields[1].name == "timestamp" && fields[2].name == "metrics";
    assert "timestamp"[0] == 't' && "metrics"[0] == 'm';
    GetAt(fields, 1, "timestamp");
    GetAt(fields, 2, "metrics");
  }

  // ---- events with members missing ---------------------------------------------------------------------------------

  function Bare(kind: string): Json {
    JObj([Str("type", kind)])
  }

  lemma BareGet(kind: string, name: string)
    requires name != "type"
    ensures Get(Bare(kind).fields, "type") == Some(JStr(kind)) && Get(Bare(kind).fields, name) == None
  {
    hide Get;
    GetAt([Str("type", kind)], 0, "type");
    GetNone([Str("type", kind)], name);
  }

  lemma MemberNames()
    ensures "from" != "type" && "text" != "type" && "timestamp" != "type" && "message" != "type"
    ensures "data" != "type" && "items" != "type" && "metrics" != "type"
  {
    assert "type"[1] == 'y' && "text"[1] == 'e' && "from"[1] == 'r' && "data"[1] == 'a';
  }

  /** What an event without members stands for: a chat from "unknown" without text, an empty notice, an empty
      alert, no rules, no metrics; every one is noted with the time. */
  lemma BareEvents(b: Board, env: Env)
    ensures var noted := b.(lastEvent := Some(env.now));
            var blank := ChatItem(JStr("unknown"), JStr(""), JStr(env.now));
            var notice := ChatItem(JStr("ack"), JStr(""), JStr(env.now));
            && HandleEvent(b, Bare("chat"), env) == Running(noted.(chat := Last(b.chat + [blank], CHAT_WINDOW)))
            && HandleEvent(b, Bare("ack"), env) == Running(noted.(chat := Last(b.chat + [notice], CHAT_WINDOW)))
            && HandleEvent(b, Bare("alert"), env) ==
               Running(noted.(alerts := Last(b.alerts + [JObj([])], ALERT_WINDOW), aws := env.upload))
            && HandleEvent(b, Bare("rules"), env) == Running(noted.(rules := JArr([])))
            && HandleEvent(b, Bare("snapshot"), env) == Running(noted.(metrics := map[]))
            && HandleEvent(b, Bare("metric"), env) == Running(noted)
  {
    hide Get, Last, Bare;
    MemberNames();
    BareGets("chat");
    BareGets("ack");
    BareGets("alert");
    BareGets("rules");
    BareGets("snapshot");
    BareGets("metric");
    GetNone([], "host");
  }

  lemma BareGets(kind: string)
    ensures Bare(kind).JObj? && Get(Bare(kind).fields, "type") == Some(JStr(kind))
    ensures forall name :: name in ["from", "text", "timestamp", "message", "data", "items", "metrics"] ==>
              Get(Bare(kind).fields, name) == None
  {
    hide Get;
    MemberNames();
    BareGet(kind, "from");
    BareGet(kind, "text");
    BareGet(kind, "timestamp");
    BareGet(kind, "message");
    BareGet(kind, "data");
    BareGet(kind, "items");
    BareGet(kind, "metrics");
  }

  /** A value that is no object raises before anything changes; an object whose type is a list or an object
      raises once the time was noted; one of an unknown type or none is only noted. */
  lemma OddEvents(b: Board, j: Json, fields: seq<Field>, env: Env)
    ensures !j.JObj? ==> HandleEvent(b, j, env) == Raised(b)
    ensures Get(fields, "type") == None ==> HandleEvent(b, JObj(fields), env) == Running(b.(lastEvent := Some(env.now)))
    ensures (exists items :: Get(fields, "type") == Some(JArr(items))) ==>
              HandleEvent(b, JObj(fields), env) == Raised(b.(lastEvent := Some(env.now)))
  {
    hide Get;
  }
}
