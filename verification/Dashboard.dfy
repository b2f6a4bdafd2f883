/** The dashboard's `MonitorConnector`: the shared state, `_handle_event` and `_consume`. */
module Dashboard {
  import opened Text
  import opened Json
  import opened Framing

  const ALERT_WINDOW: nat := 50
  const CHAT_WINDOW: nat := 80

  datatype ChatItem = ChatItem(sender: Json, text: Json, timestamp: Json)

  datatype Board = Board(
    connected: bool,
    lastEvent: Option<string>,
    metrics: map<string, Json>,
    alerts: seq<Json>,
    chat: seq<ChatItem>,
    rules: Json,
    aws: Json)

  /** What surrounds one event: the clock and the publisher's answer to an alert. */
  datatype Env = Env(now: string, upload: Json)

  /** An event is handled, or an exception leaves `_handle_event` and ends the connection. */
  datatype Outcome = Running(board: Board) | Raised(board: Board)

  /** The Python slice `xs[-n:]`. */
  function Last<T>(xs: seq<T>, n: nat): seq<T> {
    if |xs| <= n then xs else xs[|xs| - n..]
  }

  // ---- one event ---------------------------------------------------------------------------

  /** The string host of a metric item, as `item["host"]`. */
  function HostOf(item: Json): Option<string> {
    if !item.JObj? then None else
      match Get(item.fields, "host")
      case Some(JStr(h)) => Some(h)
      case _ => None
  }

  /** `{item["host"]: item for item in items}`; later items replace earlier ones. */
  function ByHost(items: seq<Json>): Option<map<string, Json>> {
    if items == [] then Some(map[]) else
      var last := items[|items| - 1];
      match ByHost(items[..|items| - 1])
      case None => None
      case Some(m) => if HostOf(last).None? then None else Some(m[HostOf(last).value := last])
  }

  function OnSnapshot(b: Board, fields: seq<Field>): Outcome {
    match Get(fields, "metrics").Or(JArr([]))
    case JArr(items) =>
      (match ByHost(items)
       case None => Raised(b)
       case Some(m) => Running(b.(metrics := m)))
    case _ => Raised(b)
  }

  function OnMetric(b: Board, fields: seq<Field>): Outcome {
    match Get(fields, "data").Or(JObj([]))
    case JObj(data) =>
      (match Get(data, "host")
       case None => Running(b)
       case Some(JStr(h)) => if h == "" then Running(b) else Running(b.(metrics := b.metrics[h := JObj(data)]))
       case Some(_) => Raised(b))
    case _ => Raised(b)
  }

  function OnAlert(b: Board, fields: seq<Field>, upload: Json): Board {
    b.(alerts := Last(b.alerts + [Get(fields, "data").Or(JObj([]))], ALERT_WINDOW), aws := upload)
  }

  function ChatOf(fields: seq<Field>, now: string): ChatItem {
    ChatItem(Get(fields, "from").Or(JStr("unknown")), Get(fields, "text").Or(JStr("")),
             Get(fields, "timestamp").Or(JStr(now)))
  }

  function NoticeOf(kind: string, fields: seq<Field>, now: string): ChatItem {
    ChatItem(JStr(kind), Get(fields, "message").Or(JStr("")), JStr(now))
  }

  function Say(b: Board, item: ChatItem): Board {
    b.(chat := Last(b.chat + [item], CHAT_WINDOW))
  }

  function Dispatch(b: Board, kind: string, fields: seq<Field>, env: Env): Outcome {
    if kind == "snapshot" then OnSnapshot(b, fields)
    else if kind == "metric" then OnMetric(b, fields)
    else if kind == "alert" then Running(OnAlert(b, fields, env.upload))
    else if kind == "chat" then Running(Say(b, ChatOf(fields, env.now)))
    else if kind == "rules" then Running(b.(rules := Get(fields, "items").Or(JArr([]))))
    else if kind == "ack" || kind == "error" then Running(Say(b, NoticeOf(kind, fields, env.now)))
    else Running(b)
  }

  /** `_handle_event`: an event that is no object raises before anything changes; a type that is
      a list or an object cannot be looked up and raises after the time was noted. */
  function HandleEvent(b: Board, event: Json, env: Env): Outcome {
    if !event.JObj? then Raised(b) else
      var noted := b.(lastEvent := Some(env.now));
      match Get(event.fields, "type")
      case Some(JStr(kind)) => Dispatch(noted, kind, event.fields, env)
      case Some(JArr(_)) => Raised(noted)
      case Some(JObj(_)) => Raised(noted)
      case _ => Running(noted)
  }

  /** One line of the stream: blank lines are skipped, a text `json.loads` rejects raises. */
  function HandleText(o: Outcome, line: string, env: Env): Outcome {
    if o.Raised? || Trim(line) == "" then o else
      match Loads(line)
      case None => Raised(o.board)
      case Some(event) => HandleEvent(o.board, event, env)
  }

  const QUIET := Env("", JObj([]))

  function EnvAt(envs: seq<Env>, k: nat): Env {
    if k < |envs| then envs[k] else QUIET
  }

  /** The lines of a stream, one after another. */
  function Replay(o: Outcome, lines: seq<string>, envs: seq<Env>): Outcome {
    if lines == [] then o else
      HandleText(Replay(o, lines[..|lines| - 1], envs), lines[|lines| - 1], EnvAt(envs, |lines| - 1))
  }

  lemma ReplaySnoc(o: Outcome, lines: seq<string>, line: string, envs: seq<Env>)
    ensures Replay(o, lines + [line], envs) == HandleText(Replay(o, lines, envs), line, EnvAt(envs, |lines|))
  {
    hide HandleText;
    assert (lines + [line])[..|lines|] == lines;
  }

  // ---- the windows hold the end of the whole history ------------------------------------------

  lemma LastSnoc<T>(xs: seq<T>, x: T, n: nat)
    ensures Last(Last(xs, n) + [x], n) == Last(xs + [x], n)
  {}

  /** The type of an event, when it is a string. */
  function KindOf(event: Json): string {
    if !event.JObj? then "" else
      match Get(event.fields, "type")
      case Some(JStr(kind)) => kind
      case _ => ""
  }

  /** The event on a line; none on a blank line or an unreadable one. */
  function EventIn(line: string): Option<Json> {
    if Trim(line) == "" then None else Loads(line)
  }

  /** The data of the alert on a line, if it carries one. */
  function AlertIn(line: string): seq<Json> {
    match EventIn(line)
    case None => []
    case Some(e) => if KindOf(e) == "alert" then [Get(e.fields, "data").Or(JObj([]))] else []
  }

  /** The chat item a line brings: a chat message, an acknowledgement or an error. */
  function ChatIn(line: string, env: Env): seq<ChatItem> {
    match EventIn(line)
    case None => []
    case Some(e) =>
      if KindOf(e) == "chat" then [ChatOf(e.fields, env.now)]
      else if KindOf(e) == "ack" || KindOf(e) == "error" then [NoticeOf(KindOf(e), e.fields, env.now)]
      else []
  }

  /** Every alert of a stream, oldest first. */
  function AlertHistory(lines: seq<string>): seq<Json> {
    if lines == [] then [] else AlertHistory(lines[..|lines| - 1]) + AlertIn(lines[|lines| - 1])
  }

  /** Chat messages, acknowledgements and errors of a stream, merged in order of arrival. */
  function ChatHistory(lines: seq<string>, envs: seq<Env>): seq<ChatItem> {
    if lines == [] then [] else
      ChatHistory(lines[..|lines| - 1], envs) + ChatIn(lines[|lines| - 1], EnvAt(envs, |lines| - 1))
  }

  /** `xs.append(x); xs = xs[-n:]` for the items that came, if any. */
  function Pushed<T>(xs: seq<T>, more: seq<T>, n: nat): seq<T> {
    if more == [] then xs else Last(xs + more, n)
  }

  lemma LineWindows(b: Board, line: string, env: Env)
    requires HandleText(Running(b), line, env).Running?
    ensures var r := HandleText(Running(b), line, env).board;
            && r.alerts == Pushed(b.alerts, AlertIn(line), ALERT_WINDOW)
            && r.chat == Pushed(b.chat, ChatIn(line, env), CHAT_WINDOW)
  {
    hide Get, ByHost, Last, ChatOf, NoticeOf, Trim, Loads;
  }

  lemma PushedWindow<T>(xs: seq<T>, sofar: seq<T>, more: seq<T>, n: nat)
    requires |more| <= 1
    ensures Pushed(Last(xs + sofar, n), more, n) == Last(xs + (sofar + more), n)
  {
    assert xs + (sofar + more) == xs + sofar + more;
    if more == [] {
      assert xs + sofar + more == xs + sofar;
    } else {
      LastSnoc(xs + sofar, more[0], n);
      assert more == [more[0]];
    }
  }

  lemma OneEach(line: string, env: Env)
    ensures |AlertIn(line)| <= 1 && |ChatIn(line, env)| <= 1
  {
    hide Trim, Loads, Get, KindOf;
  }

  /** History refinement: after any stream a board handled, its alert list is the last 50 alerts of the whole
      history and its chat list the last 80 of the merged chat, acknowledgement and error events. */
  lemma {:induction false} WindowsHoldHistory(b: Board, lines: seq<string>, envs: seq<Env>)
    requires |b.alerts| <= ALERT_WINDOW && |b.chat| <= CHAT_WINDOW
    requires Replay(Running(b), lines, envs).Running?
    ensures var r := Replay(Running(b), lines, envs).board;
            && r.alerts == Last(b.alerts + AlertHistory(lines), 50)
            && r.chat == Last(b.chat + ChatHistory(lines, envs), 80)
            && IsEndOf(r.alerts, b.alerts + AlertHistory(lines), 50)
            && IsEndOf(r.chat, b.chat + ChatHistory(lines, envs), 80)
  {
    hide HandleEvent, Loads, Trim, AlertIn, ChatIn, Last, Pushed, IsEndOf;
    LastIsEnd(b.alerts + AlertHistory(lines), 50);
    LastIsEnd(b.chat + ChatHistory(lines, envs), 80);
    if lines == [] {
      assert b.alerts + [] == b.alerts && b.chat + [] == b.chat;
      LastAll(b.alerts, ALERT_WINDOW);
      LastAll(b.chat, CHAT_WINDOW);
    } else {
      var before, line, env := lines[..|lines| - 1], lines[|lines| - 1], EnvAt(envs, |lines| - 1);
      hide HandleText;
      RunningBefore(Replay(Running(b), before, envs), line, env);
      WindowsHoldHistory(b, before, envs);
      LineWindows(Replay(Running(b), before, envs).board, line, env);
      OneEach(line, env);
      PushedWindow(b.alerts, AlertHistory(before), AlertIn(line), ALERT_WINDOW);
      PushedWindow(b.chat, ChatHistory(before, envs), ChatIn(line, env), CHAT_WINDOW);
    }
  }

  /** The last n items, or all of them when there are fewer. */
  ghost predicate IsEndOf<T>(end: seq<T>, xs: seq<T>, n: nat) {
    |end| == (if |xs| < n then |xs| else n) && end == xs[|xs| - |end|..]
  }

  lemma LastIsEnd<T>(xs: seq<T>, n: nat)
    ensures IsEndOf(Last(xs, n), xs, n)
  {}

  lemma RunningBefore(o: Outcome, line: string, env: Env)
    requires HandleText(o, line, env).Running?
    ensures o.Running?
  {}

  lemma LastAll<T>(xs: seq<T>, n: nat)
    requires |xs| <= n
    ensures Last(xs, n) == xs
  {}

  // ---- the connector ----------------------------------------------------------------------------

  class MonitorConnector {
    var connected: bool
    var lastEvent: Option<string>
    var metrics: map<string, Json>
    var alerts: seq<Json>
    var chat: seq<ChatItem>
    var rules: Json
    var aws: Json

    constructor (idle: Json)
      ensures View() == Board(false, None, map[], [], [], JArr([]), idle)
    {
      connected, lastEvent, metrics := false, None, map[];
      alerts, chat, rules, aws := [], [], JArr([]), idle;
    }

    function View(): Board
      reads this
    {
      Board(connected, lastEvent, metrics, alerts, chat, rules, aws)
    }

    /** `snapshot`: a copy of the whole state. */
    method Snapshot() returns (copy: Board)
      ensures copy == View()
    {
      copy := Board(connected, lastEvent, metrics, alerts, chat, rules, aws);
    }

    /** The snapshot branch of `_handle_event`. */
    method ReplaceMetrics(fields: seq<Field>) returns (ok: bool)
      modifies this`metrics
      ensures var r := OnSnapshot(old(View()), fields);
              View() == r.board && (ok <==> r.Running?)
    {
      hide Get, ByHost;
      var items := Get(fields, "metrics").Or(JArr([]));
      if !items.JArr? {
        return false;
      }
      var indexed := IndexByHost(items.items);
      if indexed.None? {
        return false;
      }
      metrics := indexed.value;
      return true;
    }

    /** The metric branch. */
    method StoreMetric(fields: seq<Field>) returns (ok: bool)
      modifies this`metrics
      ensures var r := OnMetric(old(View()), fields);
              View() == r.board && (ok <==> r.Running?)
    {
      hide Get;
      var data := Get(fields, "data").Or(JObj([]));
      if !data.JObj? {
        return false;
      }
      var host := Get(data.fields, "host");
      if host.Some? && !host.value.JStr? {
        return false;
      }
      if host.Some? && host.value.text != "" {
        metrics := metrics[host.value.text := data];
      }
      return true;
    }

    /** `_handle_event`; `ok` is false when it raises. */
    method Handle(event: Json, env: Env) returns (ok: bool)
      modifies this
      ensures var r := HandleEvent(old(View()), event, env);
              View() == r.board && (ok <==> r.Running?)
    {
      hide Get, Last, ChatOf, NoticeOf, OnSnapshot, OnMetric;
      if !event.JObj? {
        return false;
      }
      var kind := Get(event.fields, "type");
      lastEvent := Some(env.now);
      if kind == Some(JStr("snapshot")) {
        ok := ReplaceMetrics(event.fields);
        return;
      } else if kind == Some(JStr("metric")) {
        ok := StoreMetric(event.fields);
        return;
      } else if kind == Some(JStr("alert")) {
        alerts := alerts + [Get(event.fields, "data").Or(JObj([]))];
        alerts := Last(alerts, ALERT_WINDOW);
        aws := env.upload;
      } else if kind == Some(JStr("chat")) {
        chat := chat + [ChatOf(event.fields, env.now)];
        chat := Last(chat, CHAT_WINDOW);
      } else if kind == Some(JStr("rules")) {
        rules := Get(event.fields, "items").Or(JArr([]));
      } else if kind.Some? && (kind.value.JArr? || kind.value.JObj?) {
        return false;
      } else if kind == Some(JStr("ack")) || kind == Some(JStr("error")) {
        chat := chat + [NoticeOf(kind.value.text, event.fields, env.now)];
        chat := Last(chat, CHAT_WINDOW);
      }
      return true;
    }

    /** One complete line: skipped when blank, otherwise loaded and handled. */
    method HandleTextLine(line: string, env: Env) returns (ok: bool)
      modifies this
      ensures var r := HandleText(Running(old(View())), line, env);
              View() == r.board && (ok <==> r.Running?)
    {
      hide HandleEvent, Loads, Trim;
      if Trim(line) == "" {
        return true;
      }
      var event := Loads(line);
      if event.None? {
        return false;
      }
      ok := Handle(event.value, env);
    }

    /** `_consume`: the buffer grows by each chunk and shrinks by each complete line; an exception
        ends the connection. */
    method Consume(chunks: seq<string>, envs: seq<Env>) returns (ok: bool)
      modifies this
      ensures var r := Replay(Running(old(View())), Feed("", chunks).lines, envs);
              View() == r.board && (ok <==> r.Running?)
    {
      hide HandleText, Split, Feed, Replay;
      var buffer, turn, k := "", 0, 0;
      ghost var start := Running(View());
      ghost var done: seq<string> := [];
      ghost var all := Feed("", chunks).lines;
      ReplayNothing(start, envs);
      assert chunks[0..] == chunks && done + all == all;
      while k < |chunks|
        invariant k <= |chunks| && turn == |done|
        invariant done + Feed(buffer, chunks[k..]).lines == all
        invariant Replay(start, done, envs) == Running(View())
      {
        ghost var later := chunks[k + 1..];
        assert chunks[k..][0] == chunks[k] && chunks[k..][1..] == later;
        FeedStep(buffer, chunks[k..]);
        buffer := buffer + chunks[k];
        k := k + 1;
        while Span(buffer, NotNewline) < |buffer|
          invariant turn == |done|
          invariant done + Split(buffer).lines + Feed(Split(buffer).rest, later).lines == all
          invariant Replay(start, done, envs) == Running(View())
          decreases |buffer|
        {
          SplitStep(buffer);
          var n := Span(buffer, NotNewline);
          var line := buffer[..n];
          buffer := buffer[n + 1..];
          assert done + ([line] + Split(buffer).lines) == done + [line] + Split(buffer).lines;
          ReplaySnoc(start, done, line, envs);
          var fine := HandleTextLine(line, EnvAt(envs, turn));
          done := done + [line];
          turn := turn + 1;
          if !fine {
            RaisedStays(start, done, all, envs);
            return false;
          }
        }
        SplitDone(buffer);
        assert done + [] == done;
      }
      FeedDone(buffer);
      assert chunks[k..] == [] && done + [] == done;
      return true;
    }
  }

  lemma ReplayNothing(o: Outcome, envs: seq<Env>)
    ensures Replay(o, [], envs) == o
  {}

  lemma FeedStep(buffer: string, chunks: seq<string>)
    requires chunks != []
    ensures var now := Split(buffer + chunks[0]);
            Feed(buffer, chunks).lines == now.lines + Feed(now.rest, chunks[1..]).lines
  {}

  lemma FeedDone(buffer: string)
    ensures Feed(buffer, []).lines == []
  {}

  lemma SplitStep(buffer: string)
    requires Span(buffer, NotNewline) < |buffer|
    ensures var n := Span(buffer, NotNewline);
            Split(buffer) == Framed([buffer[..n]] + Split(buffer[n + 1..]).lines, Split(buffer[n + 1..]).rest)
  {}

  lemma SplitDone(buffer: string)
    requires Span(buffer, NotNewline) == |buffer|
    ensures Split(buffer) == Framed([], buffer)
  {}

  /** Once an exception ended the connection, the rest of the stream changes nothing. */
  lemma {:induction false} RaisedStays(o: Outcome, lines: seq<string>, all: seq<string>, envs: seq<Env>)
    requires lines <= all && Replay(o, lines, envs).Raised?
    ensures Replay(o, all, envs) == Replay(o, lines, envs)
  {
    hide HandleEvent, Loads, Trim;
    if |lines| < |all| {
      assert lines <= all[..|all| - 1];
      RaisedStays(o, lines, all[..|all| - 1], envs);
    } else {
      assert lines == all;
    }
  }

  /** The dictionary comprehension of a snapshot, item by item. */
  method IndexByHost(items: seq<Json>) returns (r: Option<map<string, Json>>)
    ensures r == ByHost(items)
  {
    var m: map<string, Json> := map[];
    for i := 0 to |items|
      invariant ByHost(items[..i]) == Some(m)
    {
      assert items[..i + 1][..i] == items[..i];
      if HostOf(items[i]).None? {
        NoIndex(items[..i + 1], items);
        return None;
      }
      m := m[HostOf(items[i]).value := items[i]];
    }
    assert items[..|items|] == items;
    return Some(m);
  }

  lemma {:induction false} NoIndex(prefix: seq<Json>, items: seq<Json>)
    requires prefix <= items && ByHost(prefix) == None
    ensures ByHost(items) == None
  {
    if |prefix| < |items| {
      assert prefix <= items[..|items| - 1];
      NoIndex(prefix, items[..|items| - 1]);
    } else {
      assert prefix == items;
    }
  }
}
