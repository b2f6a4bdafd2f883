/** What a connection gets for each kind of line, in any layout: the answers to commands, the relay of chat,
    the announcement of a rule. */
module Requests {
  import opened Text
  import opened Decimal
  import opened Json
  import opened Fields
  import opened Records
  import opened Command
  import opened Wire
  import opened Framing
  import opened Alerting
  import opened Server
  import opened Spaced
  import opened Ingest
  import opened Rounds
  import opened Dashboard
  import opened Delivery

  // ---- taking a line off the buffer ---------------------------------------------------------------------

  /** The line at the front of a connection's buffer. */
  ghost predicate Sends(s: State, i: nat, ms: seq<Member>, rest: string) {
    && i < |s.clients| && s.clients[i].buffer == LineText(ms) + ("\n" + rest)
    && forall k :: 0 <= k < |ms| ==> GoodMember(ms[k])
  }

  lemma Served(s: State, i: nat, ms: seq<Member>, rest: string, clock: seq<string>, q: Request)
    requires Sends(s, i, ms, rest) && Classify(s.clients[i], LineText(ms), clock) == q
    ensures Do(s, TakeLine(i, clock)) == Serve(SetBuffer(s, i, rest), i, q, clock)
  {
    hide LineText, HasLine, FirstOf, Trim, All, Classify, GoodMember, Serve;
    LineIsOneLine(ms);
    FirstOfLine(LineText(ms), rest);
    ClassifyIgnoresBuffer(s.clients[i], rest, LineText(ms), clock);
  }

  /** Only the sender hears anything: one payload; the core and the other connections are as they were. */
  ghost predicate OnlyAnswered(s: State, t: State, i: nat, rest: string, answer: string)
    requires i < |s.clients|
  {
    && t.core == s.core && |t.clients| == |s.clients|
    && (forall k :: 0 <= k < |s.clients| && k != i ==> t.clients[k] == s.clients[k])
    && t.clients[i] == s.clients[i].(buffer := rest, out := s.clients[i].out + [answer])
  }

  lemma AnswerServed(s: State, i: nat, rest: string, clock: seq<string>, q: Request, answer: string)
    requires i < |s.clients| && Replies(s.core, s.clients[i].(buffer := rest), q, clock) == [answer]
    requires q.ListRules? || q.CountHosts? || q.BadAlert? || q.UnknownCommand? || q.Unsupported?
    ensures OnlyAnswered(s, Serve(SetBuffer(s, i, rest), i, q, clock), i, rest, answer)
  {
    hide Replies;
    assert forall k :: 0 <= k < |s.clients| ==> s.clients[k].out + [] == s.clients[k].out;
  }

  // ---- commands -------------------------------------------------------------------------------------------

  lemma CommandClassified(s: State, i: nat, ms: seq<Member>, text: string, clock: seq<string>)
    requires i < |s.clients| && Commands(ms, text) && All(text, Verbatim)
    ensures Classify(s.clients[i], LineText(ms), clock) == ClassifyCommand(text)
  {
    hide LineText, JsonGetString, All, ClassifyCommand, Commands, DecodeMetric, Lower;
    CommandRead(ms, text);
  }

  lemma CommandsDiffer()
    ensures !("/alert" <= "/listalerts") && !("/alert" <= "/clients") && "/listalerts" != "/clients"
  {
    assert "/alert"[1] == 'a' && "/listalerts"[1] == 'l' && "/clients"[1] == 'c';
  }

  /** `/listalerts`, in any case and with any white space around it: the rules, to the sender alone. */
  lemma ListAlertsAnswered(s: State, i: nat, ms: seq<Member>, text: string, rest: string, clock: seq<string>)
    requires Sends(s, i, ms, rest) && Commands(ms, text) && All(text, Verbatim) && Lower(Trim(text)) == "/listalerts"
    ensures OnlyAnswered(s, Do(s, TakeLine(i, clock)), i, rest, RulesText(s.core.rules))
  {
    hide LineText, Classify, Do, OnlyAnswered, Lower, Trim, All, GoodMember, Commands, RulesText, Serve, ParseAlertCommand;
    CommandClassified(s, i, ms, text, clock);
    CommandsDiffer();
    Served(s, i, ms, rest, clock, ListRules);
    AnswerServed(s, i, rest, clock, ListRules, RulesText(s.core.rules));
  }

  /** `/clients`: the number of entries of the metrics map, which is the number of hosts ever accepted. */
  lemma ClientsAnswered(s: State, i: nat, ms: seq<Member>, text: string, rest: string, clock: seq<string>)
    requires Sends(s, i, ms, rest) && Commands(ms, text) && All(text, Verbatim) && Lower(Trim(text)) == "/clients"
    ensures OnlyAnswered(s, Do(s, TakeLine(i, clock)), i, rest, AckText("connected agents: " + NatText(|s.core.latest|)))
  {
    hide LineText, Classify, Do, OnlyAnswered, Lower, Trim, All, GoodMember, Commands, AckText, NatText, Serve, ParseAlertCommand;
    CommandClassified(s, i, ms, text, clock);
    CommandsDiffer();
    Served(s, i, ms, rest, clock, CountHosts);
    AnswerServed(s, i, rest, clock, CountHosts, AckText("connected agents: " + NatText(|s.core.latest|)));
  }

  lemma HostsAnswered(steps: seq<Step>, i: nat, ms: seq<Member>, text: string, rest: string, clock: seq<string>)
    requires Sends(RunSteps(START, steps), i, ms, rest) && Commands(ms, text) && All(text, Verbatim)
    requires Lower(Trim(text)) == "/clients"
    ensures var s := RunSteps(START, steps);
            OnlyAnswered(s, Do(s, TakeLine(i, clock)), i, rest,
                         AckText("connected agents: " + NatText(|Hosts(Inputs(START, steps))|)))
  {
    hide RunSteps, Do, OnlyAnswered, Lower, Trim, All, Sends, Commands, AckText, NatText, Inputs, Run, Hosts;
    ClientsAnswered(RunSteps(START, steps), i, ms, text, rest, clock);
    CoreOfRun(steps);
    LastWrite(Inputs(START, steps));
  }

  /** A text that begins like an alert command but is none: the usage text, to the sender alone. */
  lemma UsageAnswered(s: State, i: nat, ms: seq<Member>, text: string, rest: string, clock: seq<string>)
    requires Sends(s, i, ms, rest) && Commands(ms, text) && All(text, Verbatim) && "/alert" <= Lower(Trim(text))
    requires !exists d :: Derives(text, d) && KnownWord(Lower(d.token))
    ensures OnlyAnswered(s, Do(s, TakeLine(i, clock)), i, rest, ErrorText("expected /alert CPU>80% or /alert MEMORY>70%"))
  {
    hide LineText, Classify, Do, OnlyAnswered, Lower, Trim, All, GoodMember, Commands, ErrorText, Serve, ParseAlertCommand, Derives, KnownWord,
         NamedBy;
    ParserDecidesGrammar(text);
    CommandClassified(s, i, ms, text, clock);
    Served(s, i, ms, rest, clock, BadAlert);
    AnswerServed(s, i, rest, clock, BadAlert, ErrorText("expected /alert CPU>80% or /alert MEMORY>70%"));
  }

  /** Any other text: "unknown command", to the sender alone. */
  lemma UnknownAnswered(s: State, i: nat, ms: seq<Member>, text: string, rest: string, clock: seq<string>)
    requires Sends(s, i, ms, rest) && Commands(ms, text) && All(text, Verbatim)
    requires !("/alert" <= Lower(Trim(text))) && Lower(Trim(text)) != "/listalerts" && Lower(Trim(text)) != "/clients"
    ensures OnlyAnswered(s, Do(s, TakeLine(i, clock)), i, rest, ErrorText("unknown command"))
  {
    hide LineText, Classify, Do, OnlyAnswered, Lower, Trim, All, GoodMember, Commands, ErrorText, Serve, ParseAlertCommand;
    CommandClassified(s, i, ms, text, clock);
    Served(s, i, ms, rest, clock, UnknownCommand);
    AnswerServed(s, i, rest, clock, UnknownCommand, ErrorText("unknown command"));
  }

  /** An accepted alert command: every dashboard hears the announcement and the new rule list, then the sender
      its acknowledgement. */
  lemma RuleAnnounced(s: State, i: nat, ms: seq<Member>, text: string, rest: string, clock: seq<string>, k: nat)
    requires Sends(s, i, ms, rest) && Commands(ms, text) && All(text, Verbatim) && ParseAlertCommand(text).Some?
    requires k < |s.clients|
    ensures var r := ParseAlertCommand(text).value;
            var c, t := s.clients[k], Do(s, TakeLine(i, clock));
            var news := if c.role == Server.Dashboard
                        then [ChatText(ChatMessage("system", "Registered alert rule: " + Trim(text), Reading(clock, 0))),
                              RulesText(s.core.rules + [r])] else [];
            && t.core == s.core.(rules := s.core.rules + [r]) && |t.clients| == |s.clients|
            && t.clients[k] == c.(buffer := if k == i then rest else c.buffer,
                                  out := c.out + news + if k == i then [AckText("rule added: " + Trim(text))] else [])
  {
    hide LineText, Classify, Do, Lower, Trim, All, GoodMember, Commands, ChatText, RulesText, AckText, ParseAlertCommand;
    var r := ParseAlertCommand(text).value;
    ParseTrimInvariant(text);
    AcceptedDispatches(text);
    CommandClassified(s, i, ms, text, clock);
    Served(s, i, ms, rest, clock, AddRule(r));
    assert s.clients[k].out + [] == s.clients[k].out;
  }

  // ---- chat -------------------------------------------------------------------------------------------------

  /** The members of a chat line that names its sender. */
  ghost predicate Chats(ms: seq<Member>, from: string, text: string) {
    && |ms| == 3 && GoodMember(ms[0]) && GoodMember(ms[1]) && GoodMember(ms[2])
    && ms[0].name == "type" && ms[0].text == "chat" && ms[1].name == "from" && ms[1].text == from
    && ms[2].name == "text" && ms[2].text == text
  }

  /** The members of a chat line that does not. */
  ghost predicate ChatsUnsigned(ms: seq<Member>, text: string) {
    && |ms| == 2 && GoodMember(ms[0]) && GoodMember(ms[1])
    && ms[0].name == "type" && ms[0].text == "chat" && ms[1].name == "text" && ms[1].text == text
  }

  lemma ChatWords()
    ensures IsKey("type") && IsKey("from") && IsKey("text") && All("chat", Verbatim)
    ensures "type" != "from" && "type" != "text" && "from" != "text"
  {
    assert "type"[1] == 'y' && "text"[1] == 'e' && "from"[1] == 'r';
  }

  lemma ChatRead(ms: seq<Member>, from: string, text: string)
    requires Chats(ms, from, text) && All(from, Verbatim) && All(text, Verbatim)
    ensures JsonGetString(LineText(ms), "type") == Some("chat")
    ensures JsonGetString(LineText(ms), "from") == Some(from) && JsonGetString(LineText(ms), "text") == Some(text)
  {
    hide LineText, JsonGetString, Escape, All, GoodMember, IsKey;
    ChatWords();
    PrintedAsIs("chat");
    PrintedAsIs(from);
    PrintedAsIs(text);
    ReadThree(ms);
  }

  lemma UnsignedRead(ms: seq<Member>, text: string)
    requires ChatsUnsigned(ms, text) && All(text, Verbatim)
    ensures JsonGetString(LineText(ms), "type") == Some("chat") && JsonGetString(LineText(ms), "text") == Some(text)
    ensures JsonGetString(LineText(ms), "from") == None
  {
    hide LineText, Search, Escape, All, GoodMember, IsKey;
    ChatWords();
    PrintedAsIs("chat");
    PrintedAsIs(text);
    ReadTwo(ms);
    MissMember(TextValue, ms, "from");
  }

  /** Every dashboard hears the message, nobody else hears anything, and the core is as it was. */
  ghost predicate Relayed(s: State, t: State, i: nat, rest: string, c: ChatMessage) {
    && t.core == s.core && |t.clients| == |s.clients|
    && (forall k :: 0 <= k < |s.clients| ==>
          t.clients[k] == s.clients[k].(
            buffer := if k == i then rest else s.clients[k].buffer,
            out := s.clients[k].out + if s.clients[k].role == Server.Dashboard then [ChatText(c)] else []))
  }

  lemma TalkServed(s: State, i: nat, rest: string, clock: seq<string>, c: ChatMessage)
    requires i < |s.clients|
    ensures Relayed(s, Serve(SetBuffer(s, i, rest), i, Talk(c), clock), i, rest, c)
  {
    hide ChatText;
    var t := Serve(SetBuffer(s, i, rest), i, Talk(c), clock);
    forall k | 0 <= k < |s.clients|
      ensures t.clients[k] == s.clients[k].(
                buffer := if k == i then rest else s.clients[k].buffer,
                out := s.clients[k].out + if s.clients[k].role == Server.Dashboard then [ChatText(c)] else [])
    {
      var out := s.clients[k].out;
      assert out + [] == out && out + [ChatText(c)] + [] == out + [ChatText(c)];
    }
  }

  /** A chat line is relayed with the sender and the text it names, at the time it was handled. */
  lemma ChatRelayed(s: State, i: nat, ms: seq<Member>, from: string, text: string, rest: string, clock: seq<string>)
    requires Sends(s, i, ms, rest) && Chats(ms, from, text) && All(from, Verbatim) && All(text, Verbatim)
    ensures Relayed(s, Do(s, TakeLine(i, clock)), i, rest, ChatMessage(from, text, Reading(clock, 0)))
  {
    hide LineText, JsonGetString, Do, All, GoodMember, Chats, Relayed, Serve, DecodeMetric, ClassifyCommand, Lower;
    ChatRead(ms, from, text);
    var c := ChatMessage(from, text, Reading(clock, 0));
    Served(s, i, ms, rest, clock, Talk(c));
    TalkServed(s, i, rest, clock, c);
  }

  /** Without a sender it is relayed under the connection's declared host, or its address when it has none. */
  lemma UnsignedChatRelayed(s: State, i: nat, ms: seq<Member>, text: string, rest: string, clock: seq<string>)
    requires Sends(s, i, ms, rest) && ChatsUnsigned(ms, text) && All(text, Verbatim)
    ensures var c := s.clients[i];
            var sender := if c.declaredHost != "" then c.declaredHost else c.peerLabel;
            Relayed(s, Do(s, TakeLine(i, clock)), i, rest, ChatMessage(sender, text, Reading(clock, 0)))
  {
    hide LineText, JsonGetString, Do, All, GoodMember, ChatsUnsigned, Relayed, Serve, DecodeMetric, ClassifyCommand, Lower;
    UnsignedRead(ms, text);
    var client := s.clients[i];
    var sender := if client.declaredHost != "" then client.declaredHost else client.peerLabel;
    var c := ChatMessage(sender, text, Reading(clock, 0));
    Served(s, i, ms, rest, clock, Talk(c));
    TalkServed(s, i, rest, clock, c);
  }

  /** From the line to the board: a reader of a dashboard's stream that handles what came before gains the item
      with the sender and the text of the line. */
  lemma ChatReachesBoard(s: State, i: nat, ms: seq<Member>, from: string, text: string, rest: string, clock: seq<string>,
                         k: nat, b: Board, envs: seq<Env>)
    requires Sends(s, i, ms, rest) && Chats(ms, from, text) && All(from, Verbatim) && All(text, Verbatim)
    requires Clean(from) && Clean(text) && Clean(Reading(clock, 0))
    requires k < |s.clients| && s.clients[k].role == Server.Dashboard && Replay(Running(b), s.clients[k].out, envs).Running?
    ensures |Do(s, TakeLine(i, clock)).clients| == |s.clients|
    ensures var before := Replay(Running(b), s.clients[k].out, envs).board;
            var o := Replay(Running(b), Do(s, TakeLine(i, clock)).clients[k].out, envs);
            && o.Running?
            && o.board.chat == Last(before.chat + [ChatItem(JStr(from), JStr(text), JStr(Reading(clock, 0)))], CHAT_WINDOW)
  {
    hide Replay, HandleText, Do, All, GoodMember, Chats, Clean, Last, ChatText;
    var c := ChatMessage(from, text, Reading(clock, 0));
    ChatRelayed(s, i, ms, from, text, rest, clock);
    var out := s.clients[k].out;
    ReplaySnoc(Running(b), out, ChatText(c), envs);
    ChatArrives(c, Replay(Running(b), out, envs).board, EnvAt(envs, |out|));
  }

  // ---- everything else -----------------------------------------------------------------------------------------

  /** A line of any other type, or metrics from a connection that is no agent: "unsupported message", to the
      sender alone. */
  lemma UnsupportedAnswered(s: State, i: nat, ms: seq<Member>, j: nat, rest: string, clock: seq<string>)
    requires Sends(s, i, ms, rest) && j < |ms| && ms[j].name == "type" && All(ms[j].text, Verbatim)
    requires forall k :: 0 <= k < j ==> ms[k].name != "type"
    requires ms[j].text != "register" && ms[j].text != "command" && ms[j].text != "chat"
    requires ms[j].text == "metrics" ==> s.clients[i].role != Agent
    ensures OnlyAnswered(s, Do(s, TakeLine(i, clock)), i, rest, ErrorText("unsupported message"))
  {
    hide LineText, JsonGetString, Do, All, OnlyAnswered, Serve, DecodeMetric, ClassifyCommand, Lower, ErrorText, Escape, GoodMember;
    GetMember(ms, j);
    PrintedAsIs(ms[j].text);
    Served(s, i, ms, rest, clock, Unsupported);
    AnswerServed(s, i, rest, clock, Unsupported, ErrorText("unsupported message"));
  }

  /** A line of white space is passed over: nothing is answered and nothing changes but the buffer. */
  lemma BlankLinePassedOver(s: State, i: nat, blanks: string, rest: string, clock: seq<string>)
    requires i < |s.clients| && s.clients[i].buffer == blanks + ("\n" + rest)
    requires All(blanks, IsSpace) && All(blanks, NotNewline)
    ensures Do(s, TakeLine(i, clock)) == SetBuffer(s, i, rest)
  {
    hide HasLine, FirstOf, Trim, All, Serve, Classify;
    FirstOfLine(blanks, rest);
    TrimBlank(blanks);
  }

  lemma TrimBlank(blanks: string)
    requires All(blanks, IsSpace)
    ensures Trim(blanks) == ""
  {
    hide Trim;
    assert blanks + "" + "" == blanks;
    TrimUnique(blanks, "", "");
  }

  /** White space around a line is passed over too: the line is served as if it were not there. */
  lemma PaddedLineServed(s: State, i: nat, lead: string, ms: seq<Member>, tail: string, rest: string, clock: seq<string>)
    requires i < |s.clients| && s.clients[i].buffer == lead + LineText(ms) + tail + ("\n" + rest)
    requires All(lead, BlankChar) && All(tail, BlankChar) && forall k :: 0 <= k < |ms| ==> GoodMember(ms[k])
    ensures Do(s, TakeLine(i, clock)) == Do(SetBuffer(s, i, LineText(ms) + ("\n" + rest)), TakeLine(i, clock))
  {
    hide HasLine, FirstOf, Trim, All, Serve, Classify, LineText, GoodMember, Solid;
    var line := lead + LineText(ms) + tail;
    LineIsOneLine(ms);
    Blanks(lead);
    Blanks(tail);
    AllConcat(lead, LineText(ms), NotNewline);
    AllConcat(lead + LineText(ms), tail, NotNewline);
    LineSolid(ms);
    TrimUnique(lead, LineText(ms), tail);
    FirstOfLine(line, rest);
    FirstOfLine(LineText(ms), rest);
    SetTwice(s, i, LineText(ms) + ("\n" + rest), rest);
  }

  lemma LineSolid(ms: seq<Member>)
    ensures Solid(LineText(ms))
  {
    hide MembersText;
    var text := LineText(ms);
    assert text[0] == '{' && text[|text| - 1] == '}';
  }

  lemma BareRead(ms: seq<Member>, kind: string, name: string)
    requires |ms| == 1 && GoodMember(ms[0]) && ms[0].name == "type" && ms[0].text == kind && All(kind, Verbatim)
    requires IsKey(name) && name != "type"
    ensures JsonGetString(LineText(ms), "type") == Some(kind) && JsonGetString(LineText(ms), name) == None
  {
    hide LineText, Search, Escape, All, GoodMember, IsKey;
    PrintedAsIs(kind);
    GetMember(ms, 0);
    MissMember(TextValue, ms, name);
  }

  /** A request with nothing but its type: a registration without role keeps the role and takes the connection's
      address for host, a command without text is unknown, a chat has no text and the connection for sender. */
  lemma BareLines(c: Client, ms: seq<Member>, kind: string, clock: seq<string>)
    requires |ms| == 1 && GoodMember(ms[0]) && ms[0].name == "type" && ms[0].text == kind
    requires kind == "register" || kind == "command" || kind == "chat"
    ensures var q := Classify(c, LineText(ms), clock);
            && (kind == "register" ==> q == Hello("", c.peerLabel))
            && (kind == "command" ==> q == UnknownCommand)
            && (kind == "chat" ==>
                  q == Talk(ChatMessage(if c.declaredHost != "" then c.declaredHost else c.peerLabel, "", Reading(clock, 0))))
  {
    hide LineText, JsonGetString, GoodMember, IsKey, DecodeMetric, ParseAlertCommand, Lower, Trim, All;
    Keywords();
    ChatWords();
    FixedTexts();
    BareRead(ms, kind, "role");
    BareRead(ms, kind, "host");
    BareRead(ms, kind, "text");
    BareRead(ms, kind, "from");
    EmptyTexts();
  }

  lemma EmptyTexts()
    ensures Lower("") == "" && Trim("") == "" && "register" != "command" && "register" != "chat" && "command" != "chat"
  {
    assert "register"[0] == 'r';
    TrimBlank("");
  }

  /** A line without a type: "unsupported message", to the sender alone. */
  lemma UntypedAnswered(s: State, i: nat, ms: seq<Member>, rest: string, clock: seq<string>)
    requires Sends(s, i, ms, rest) && ms != [] && forall k :: 0 <= k < |ms| ==> ms[k].name != "type"
    ensures OnlyAnswered(s, Do(s, TakeLine(i, clock)), i, rest, ErrorText("unsupported message"))
  {
    hide LineText, Search, Do, All, OnlyAnswered, Serve, DecodeMetric, ClassifyCommand, Lower, ErrorText, GoodMember, IsKey;
    Keywords();
    MissMember(TextValue, ms, "type");
    Served(s, i, ms, rest, clock, Unsupported);
    AnswerServed(s, i, rest, clock, Unsupported, ErrorText("unsupported message"));
  }

  /** Metrics without any field: the declared host, the time of handling, and zero everywhere. */
  lemma BareMetrics(ms: seq<Member>, declaredHost: string, now: string)
    requires |ms| == 1 && GoodMember(ms[0]) && ms[0].name == "type"
    ensures DecodeMetric(LineText(ms), declaredHost, now) ==
            Metric(declaredHost, now, ZERO, ZERO, ZERO, ZERO, ZERO, 0, 0, 0, 0)
  {
    hide LineText, Search, GoodMember, IsKey;
    forall i: nat, kind: Kind | 0 < i < 12
      ensures Search(kind, LineText(ms), NAMES[i]) == None
    {
      NamesAreKeys(i);
      NamesDistinct(0, i);
      MissMember(kind, ms, NAMES[i]);
    }
    assert NAMES[0] == "type" && NAMES[1] == "host" && NAMES[2] == "timestamp";
    assert forall i: nat :: 0 < i < 12 ==> JsonGetString(LineText(ms), NAMES[i]) == None;
    assert forall i: nat :: 0 < i < 12 ==> JsonGetNumber(LineText(ms), NAMES[i]) == None;
    assert forall i: nat :: 0 < i < 12 ==> JsonGetInteger(LineText(ms), NAMES[i]) == None;
    hide JsonGetString, JsonGetNumber, JsonGetInteger;
    assert NAMES[3] == "cpu_percent" && NAMES[4] == "memory_percent" && NAMES[5] == "disk_percent";
    assert NAMES[6] == "network_rx_kbps" && NAMES[7] == "network_tx_kbps";
    assert NAMES[8] == "memory_used_mb" && NAMES[9] == "memory_total_mb";
    assert NAMES[10] == "disk_used_mb" && NAMES[11] == "disk_total_mb";
  }

  // ---- roles -----------------------------------------------------------------------------------------------------

  /** A connection begins without role, host, bytes or output. */
  lemma BeginsUnknown(s: State, fd: int, peer: string)
    ensures var t := Do(s, Accept(fd, peer));
            && t.core == s.core && |t.clients| == |s.clients| + 1 && t.clients[..|s.clients|] == s.clients
            && var c := t.clients[|s.clients|];
               c.fd == fd && c.peerLabel == peer && c.role == Unknown && c.declaredHost == "" && c.buffer == "" && c.out == []
  {}

  /** A line, as taken off the buffer, that registers its connection in a role. */
  ghost predicate Declares(line: string, role: string) {
    && Trim(line) != "" && JsonGetString(Trim(line), "type") == Some("register")
    && Lower(JsonGetString(Trim(line), "role").Or("")) == role
  }

  /** A step leaves a connection's role alone, unless it takes a line that declares one. */
  lemma StepRole(s: State, step: Step, k: nat)
    requires k < |Do(s, step).clients| && !(step.Accept? && k == |s.clients|)
    ensures Earlier(s, step, k) < |s.clients|
    ensures var c, d := s.clients[Earlier(s, step, k)], Do(s, step).clients[k];
            d.role == c.role ||
            (&& step.TakeLine? && step.index == k && HasLine(c.buffer)
             && var line := Split(c.buffer).lines[0];
                (d.role == Agent && Declares(line, "agent")) || (d.role == Server.Dashboard && Declares(line, "dashboard")))
  {
    hide Classify, HasLine, FirstOf, Serve, Split, Declares;
    if step.TakeLine? && step.index < |s.clients| && HasLine(s.clients[step.index].buffer) {
      var i := step.index;
      var (line, rest) := FirstOf(s.clients[i].buffer);
      var t := SetBuffer(s, i, rest);
      FirstTaken(s.clients[i].buffer);
      FirstIsTrimmed(s.clients[i].buffer);
      if line != "" {
        var q := Classify(t.clients[i], line, step.clock);
        ServeRole(t, i, q, step.clock, k);
        HelloDeclares(t.clients[i], Split(s.clients[i].buffer).lines[0], step.clock);
      }
    }
  }

  lemma FirstIsTrimmed(b: string)
    requires HasLine(b)
    ensures Split(b).lines != [] && FirstOf(b).0 == Trim(Split(b).lines[0])
  {
    hide Trim;
  }

  lemma ServeRole(s: State, i: nat, q: Request, clock: seq<string>, k: nat)
    requires i < |s.clients| && k < |s.clients|
    ensures Serve(s, i, q, clock).clients[k].role ==
            if k == i && q.Hello? && q.role == "agent" then Agent
            else if k == i && q.Hello? && q.role == "dashboard" then Server.Dashboard
            else s.clients[k].role
  {
    hide Published, Replies;
  }

  lemma HelloDeclares(c: Client, line: string, clock: seq<string>)
    requires Trim(line) != ""
    ensures var q := Classify(c, Trim(line), clock);
            q.Hello? ==> Declares(line, q.role)
  {
    hide JsonGetString, DecodeMetric, Lower, Trim, ParseAlertCommand;
  }

  ghost predicate Declared(lines: seq<string>, role: string) {
    exists j :: 0 <= j < |lines| && Declares(lines[j], role)
  }

  lemma DeclaredLater(lines: seq<string>, more: seq<string>, role: string)
    requires Declared(lines, role)
    ensures Declared(lines + more, role)
  {
    hide Declares;
    var j :| 0 <= j < |lines| && Declares(lines[j], role);
    assert (lines + more)[j] == lines[j];
  }

  lemma DeclaredNow(lines: seq<string>, line: string, role: string)
    requires Declares(line, role)
    ensures Declared(lines + [line], role)
  {
    hide Declares;
    assert (lines + [line])[|lines|] == line;
  }

  /** Roles come from registration only: in every run, a connection that is an agent or a dashboard sent a line
      that registers it as one. */
  lemma {:induction false} RolesAreDeclared(steps: seq<Step>, k: nat)
    requires k < |RunSteps(START, steps).clients|
    ensures var c := RunSteps(START, steps).clients[k];
            && (c.role == Agent ==> Declared(TakenFrom(steps, k), "agent"))
            && (c.role == Server.Dashboard ==> Declared(TakenFrom(steps, k), "dashboard"))
  {
    hide Do, Declares, Declared, Split, HasLine;
    if steps != [] {
      var before, last := steps[..|steps| - 1], steps[|steps| - 1];
      var s := RunSteps(START, before);
      if last.Accept? && k == |s.clients| {
        BeginsUnknown(s, last.fd, last.peer);
      } else {
        StepRole(s, last, k);
        var j := Earlier(s, last, k);
        RolesAreDeclared(before, j);
        var sofar := TakenFrom(before, j);
        var more := if last.TakeLine? && last.index == k && k < |s.clients| && HasLine(s.clients[k].buffer)
                    then FirstTaken(s.clients[k].buffer); [Split(s.clients[k].buffer).lines[0]] else [];
        assert TakenFrom(steps, k) == sofar + more;
        RoleTold(s.clients[j].role, RunSteps(START, steps).clients[k].role, sofar, more);
      }
    }
  }

  lemma RoleTold(was: Role, now: Role, sofar: seq<string>, more: seq<string>)
    requires was == Agent ==> Declared(sofar, "agent")
    requires was == Server.Dashboard ==> Declared(sofar, "dashboard")
    requires now == was || (|more| == 1 && ((now == Agent && Declares(more[0], "agent"))
                                           || (now == Server.Dashboard && Declares(more[0], "dashboard"))))
    ensures now == Agent ==> Declared(sofar + more, "agent")
    ensures now == Server.Dashboard ==> Declared(sofar + more, "dashboard")
  {
    hide Declares, Declared;
    if now == was {
      if now == Agent {
        DeclaredLater(sofar, more, "agent");
      } else if now == Server.Dashboard {
        DeclaredLater(sofar, more, "dashboard");
      }
    } else {
      assert more == [more[0]];
      DeclaredNow(sofar, more[0], if now == Agent then "agent" else "dashboard");
    }
  }

  /** So until a connection has registered as an agent, nothing it sends enters the history as a metric. */
  lemma SilentUntilRegistered(steps: seq<Step>, k: nat, clock: seq<string>)
    requires k < |RunSteps(START, steps).clients| && !Declared(TakenFrom(steps, k), "agent")
    ensures forall e :: e in StepInput(RunSteps(START, steps), TakeLine(k, clock)) ==> !e.Observe?
  {
    hide RunSteps, TakenFrom, Declared, StepInput, FirstOf, HasLine, JsonGetString, DecodeMetric;
    RolesAreDeclared(steps, k);
    MetricsOnlyFromAgents(RunSteps(START, steps), TakeLine(k, clock));
  }
}
