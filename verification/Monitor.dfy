/** `MonitorServer`: the imperative server, each method proved against the state machine, and the
    descriptors it opens and closes over a whole run. */
module Monitor {
  import opened Text
  import opened Decimal
  import opened Json
  import opened Fields
  import opened Records
  import opened Command
  import opened Wire
  import opened Framing
  import opened Alerting
  import opened HostOrder
  import opened Server
  import opened Rounds

  // ---- facts about publishing and sending --------------------------------------------------------

  lemma PublishTwice(clients: seq<Client>, a: seq<string>, b: seq<string>)
    ensures Publish(Publish(clients, a), b) == Publish(clients, a + b)
  {
    forall i | 0 <= i < |clients|
      ensures Publish(Publish(clients, a), b)[i] == Publish(clients, a + b)[i]
    {
      assert clients[i].out + a + b == clients[i].out + (a + b);
    }
  }

  lemma PublishNothing(clients: seq<Client>)
    ensures Publish(clients, []) == clients
  {
    forall i | 0 <= i < |clients|
      ensures Publish(clients, [])[i] == clients[i]
    {
      assert clients[i].out + [] == clients[i].out;
    }
  }

  lemma SendNothing(clients: seq<Client>, i: nat)
    requires i < |clients|
    ensures SendTo(clients, i, []) == clients
  {
    assert clients[i].out + [] == clients[i].out;
  }

  lemma BuildsAlert(alert: AlertEvent, rule: AlertRule, m: Metric, stamp: string)
    requires alert.host == m.host && alert.timestamp == stamp && alert.rule == rule.rawCommand
    requires alert.metricKey == rule.metricKey && alert.displayMetric == rule.displayMetric
    requires alert.metricValue == MetricValue(m, rule.metricKey) && alert.threshold == rule.threshold
    requires alert.message ==
             rule.displayMetric + " on " + m.host + " crossed threshold at " + FormatDouble(MetricValue(m, rule.metricKey))
    ensures alert == AlertFor(rule, m, stamp)
  {
    hide FormatDouble, MetricValue;
  }

  lemma AlertTextsNone()
    ensures AlertTexts([]) == []
  {}

  lemma AlertTextsSnoc(alerts: seq<AlertEvent>, a: AlertEvent)
    ensures AlertTexts(alerts + [a]) == AlertTexts(alerts) + [AlertText(a)]
  {
    hide AlertText;
  }

  // ---- descriptors ---------------------------------------------------------------------------------

  ghost predicate Distinct(fds: seq<int>) {
    forall i, j :: 0 <= i < j < |fds| ==> fds[i] != fds[j]
  }

  lemma ServeFds(s: State, i: nat, q: Request, clock: seq<string>)
    requires i < |s.clients|
    ensures Fds(Serve(s, i, q, clock).clients) == Fds(s.clients)
  {
    hide Published, Replies, Advance, InputOf, NewRole;
    forall k | 0 <= k < |s.clients|
      ensures Serve(s, i, q, clock).clients[k].fd == s.clients[k].fd
    {
      ServeKeeps(s, i, q, clock, k);
    }
  }

  // ---- erasing marked connections --------------------------------------------------------------------

  function Without<T>(xs: seq<T>, i: nat): seq<T>
    requires i < |xs|
  {
    xs[..i] + xs[i + 1..]
  }

  ghost predicate Marks(marked: seq<nat>, n: nat) {
    (forall i, j :: 0 <= i < j < |marked| ==> marked[i] < marked[j]) && (forall i :: 0 <= i < |marked| ==> marked[i] < n)
  }

  lemma MarksInit(marked: seq<nat>, n: nat)
    requires Marks(marked, n) && marked != []
    ensures marked[|marked| - 1] < n && Marks(marked[..|marked| - 1], n - 1)
  {}

  /** Erasing by index, the last mark first. */
  function EraseMarked<T>(xs: seq<T>, marked: seq<nat>): seq<T>
    requires Marks(marked, |xs|)
    decreases |marked|
  {
    if marked == [] then xs else
      MarksInit(marked, |xs|);
      EraseMarked(Without(xs, marked[|marked| - 1]), marked[..|marked| - 1])
  }

  /** The elements at positions that are not marked, in order. */
  function Unmarked<T>(xs: seq<T>, marked: seq<nat>): seq<T> {
    if xs == [] then [] else
      Unmarked(xs[..|xs| - 1], marked) + if |xs| - 1 in marked then [] else [xs[|xs| - 1]]
  }

  lemma {:induction false} UnmarkedTail<T>(a: seq<T>, b: seq<T>, marked: seq<nat>)
    requires forall i :: 0 <= i < |marked| ==> marked[i] < |a|
    ensures Unmarked(a + b, marked) == Unmarked(a, marked) + b
  {
    if b == [] {
      assert a + b == a;
    } else {
      assert (a + b)[..|a + b| - 1] == a + b[..|b| - 1];
      UnmarkedTail(a, b[..|b| - 1], marked);
    }
  }

  lemma {:induction false} UnmarkedSame<T>(xs: seq<T>, marked: seq<nat>, fewer: seq<nat>)
    requires forall i: nat :: i < |xs| ==> (i in marked <==> i in fewer)
    ensures Unmarked(xs, marked) == Unmarked(xs, fewer)
  {
    if xs != [] {
      UnmarkedSame(xs[..|xs| - 1], marked, fewer);
    }
  }

  lemma UnmarkedEmpty<T>()
    ensures Unmarked<T>([], []) == []
  {}

  lemma UnmarkedDrop<T>(a: seq<T>, x: T, marked: seq<nat>, init: seq<nat>)
    requires marked == init + [|a|]
    ensures Unmarked(a + [x], marked) == Unmarked(a, init)
  {
    assert (a + [x])[..|a + [x]| - 1] == a && marked[|init|] == |a|;
    UnmarkedSame(a, marked, init);
  }

  /** Reverse-order erasure stays in range and removes exactly the marked elements, keeping the
      order of the others. */
  lemma {:induction false} EraseIsFilter<T>(xs: seq<T>, marked: seq<nat>)
    requires Marks(marked, |xs|)
    ensures EraseMarked(xs, marked) == Unmarked(xs, marked)
    decreases |marked|
  {
    hide Unmarked;
    if marked == [] {
      UnmarkedTail([], xs, []);
      UnmarkedEmpty<T>();
      assert [] + xs == xs;
    } else {
      var init, last := marked[..|marked| - 1], marked[|marked| - 1];
      var a, b := xs[..last], xs[last + 1..];
      MarksInit(marked, |xs|);
      EraseIsFilter(Without(xs, last), init);
      UnmarkedTail(a, b, init);
      UnmarkedTail(a + [xs[last]], b, marked);
      assert xs == a + [xs[last]] + b;
      UnmarkedDrop(a, xs[last], marked, init);
    }
  }

  // ---- the class ---------------------------------------------------------------------------------------

  const NO_FD := -1

  class MonitorServer {
    var clients: seq<Client>
    var latestMetrics: map<string, Metric>
    var alertRules: seq<AlertRule>
    var activeAlerts: map<string, bool>
    var listenFd: int
    // the kernel's side: descriptors open now, and every one accepted or closed so far
    var open: set<int>
    var accepted: seq<int>
    var closed: seq<int>

    constructor (listener: int)
      requires listener >= 0
      ensures Abs() == START && Valid() && listenFd == listener && accepted == [] && closed == []
    {
      clients, latestMetrics, alertRules, activeAlerts := [], map[], [], map[];
      listenFd, open, accepted, closed := listener, {listener}, [], [];
    }

    ghost function Abs(): State
      reads this
    {
      State(clients, Core(latestMetrics, alertRules, activeAlerts))
    }

    /** Client descriptors are pairwise distinct and differ from the listener, exactly they and the
        listener are open, every accepted descriptor is either closed or a client's, and no complete line
        waits in a buffer. */
    ghost predicate Valid()
      reads this
    {
      && listenFd >= 0 && listenFd !in Fds(clients) && Distinct(Fds(clients))
      && (forall fd :: fd in open <==> fd == listenFd || fd in Fds(clients))
      && multiset(accepted) == multiset(closed) + multiset(Fds(clients))
      && NoneWaiting(Abs())
    }

    // ---- output --------------------------------------------------------------------------------------

    method Broadcast(payload: string)
      modifies this`clients
      ensures clients == Publish(old(clients), [payload])
    {
      ghost var before := clients;
      for i := 0 to |clients|
        invariant |clients| == |before|
        invariant forall k :: 0 <= k < i ==> clients[k] == Publish(before, [payload])[k]
        invariant forall k :: i <= k < |before| ==> clients[k] == before[k]
      {
        if clients[i].role == Dashboard {
          clients := clients[i := clients[i].(out := clients[i].out + [payload])];
        }
      }
    }

    method Send(index: nat, payload: string)
      requires index < |clients|
      modifies this`clients
      ensures clients == SendTo(old(clients), index, [payload])
    {
      clients := clients[index := clients[index].(out := clients[index].out + [payload])];
    }

    // ---- evaluate_rules --------------------------------------------------------------------------------

    method EvaluateRules(m: Metric, stamps: seq<string>)
      modifies this`clients, this`activeAlerts
      ensures var e := Evaluate(alertRules, m, old(activeAlerts), stamps);
              activeAlerts == e.active && clients == Publish(old(clients), AlertTexts(e.alerts))
    {
      hide RuleMatches, Key, AlertFor, AlertText, AlertTexts, Publish, FormatDouble, MetricValue;
      ghost var before, active := clients, activeAlerts;
      var fired := 0;
      PublishNothing(before);
      AlertTextsNone();
      for i := 0 to |alertRules|
        invariant var e := Evaluate(alertRules[..i], m, active, stamps);
                  activeAlerts == e.active && clients == Publish(before, AlertTexts(e.alerts)) && fired == |e.alerts|
      {
        ghost var e := Evaluate(alertRules[..i], m, active, stamps);
        assert alertRules[..i + 1][..i] == alertRules[..i];
        var rule := alertRules[i];
        var key := Key(m.host, rule.rawCommand);
        var matched := RuleMatches(rule, m);
        var previous := key in activeAlerts && activeAlerts[key];
        if matched && !previous {
          var value := MetricValue(m, rule.metricKey);
          var alert := AlertEvent(m.host, Reading(stamps, fired), rule.metricKey, rule.displayMetric, value, rule.threshold,
                                  rule.rawCommand,
                                  rule.displayMetric + " on " + m.host + " crossed threshold at " + FormatDouble(value));
          BuildsAlert(alert, rule, m, Reading(stamps, fired));
          Broadcast(AlertText(alert));
          PublishTwice(before, AlertTexts(e.alerts), [AlertText(alert)]);
          AlertTextsSnoc(e.alerts, alert);
          fired := fired + 1;
        }
        activeAlerts := activeAlerts[key := matched];
      }
      assert alertRules[..|alertRules|] == alertRules;
    }

    // ---- handle_command and handle_line -------------------------------------------------------------------

    method Register(index: nat, role: string, host: string, clock: seq<string>)
      requires index < |clients|
      modifies this`clients
      ensures Abs() == Serve(old(Abs()), index, Hello(role, host), clock)
    {
      hide AckText, RulesText, SnapshotText, Render;
      ghost var s := Abs();
      var client := clients[index].(declaredHost := host);
      if role == "agent" {
        client := client.(role := Agent);
      } else if role == "dashboard" {
        client := client.(role := Dashboard);
      }
      clients := clients[index := client];
      ghost var named := clients;
      PublishNothing(named);
      Send(index, AckText("registered as " + role));
      if client.role == Dashboard {
        var snapshot := SnapshotEventToJson(Reading(clock, 0), latestMetrics);
        Send(index, snapshot);
        var listed := RulesEventToJson(alertRules);
        Send(index, listed);
        SendThrice(named, index, AckText("registered as " + role), snapshot, listed);
      } else {
        assert [AckText("registered as " + role)] + [] == [AckText("registered as " + role)];
      }
    }

    method HandleMetric(index: nat, m: Metric, clock: seq<string>)
      requires index < |clients|
      modifies this`clients, this`latestMetrics, this`activeAlerts
      ensures Abs() == Serve(old(Abs()), index, Report(m), clock)
    {
      hide MetricText, AlertTexts, Evaluate;
      ghost var before := clients;
      latestMetrics := latestMetrics[m.host := m];
      Broadcast(MetricText(m));
      ghost var e := Evaluate(alertRules, m, activeAlerts, Later(clock));
      EvaluateRules(m, Later(clock));
      PublishTwice(before, [MetricText(m)], AlertTexts(e.alerts));
      SendNothing(clients, index);
      assert before[index := before[index]] == before;
    }

    method HandleChat(index: nat, message: ChatMessage, clock: seq<string>)
      requires index < |clients|
      modifies this`clients
      ensures Abs() == Serve(old(Abs()), index, Talk(message), clock)
    {
      hide ChatText;
      ghost var before := clients;
      Broadcast(ChatText(message));
      SendNothing(clients, index);
      assert before[index := before[index]] == before;
    }

    method AddAlertRule(index: nat, rule: AlertRule, clock: seq<string>)
      requires index < |clients|
      modifies this`clients, this`alertRules
      ensures Abs() == Serve(old(Abs()), index, AddRule(rule), clock)
    {
      hide ChatText, RulesText, AckText;
      ghost var before := clients;
      alertRules := alertRules + [rule];
      var notice := RuleNotice(rule, Reading(clock, 0));
      Broadcast(ChatText(notice));
      var listed := RulesEventToJson(alertRules);
      Broadcast(listed);
      PublishTwice(before, [ChatText(notice)], [listed]);
      assert [ChatText(notice)] + [listed] == [ChatText(notice), listed];
      Send(index, AckText("rule added: " + rule.rawCommand));
      assert before[index := before[index]] == before;
    }

    /** A request answered to the sender alone. */
    method Answer(index: nat, payload: string, ghost q: Request, ghost clock: seq<string>)
      requires index < |clients|
      requires q.BadAlert? || q.ListRules? || q.CountHosts? || q.UnknownCommand? || q.Unsupported?
      requires Replies(Abs().core, clients[index], q, clock) == [payload]
      modifies this`clients
      ensures Abs() == Serve(old(Abs()), index, q, clock)
    {
      hide Replies;
      ghost var before := clients;
      Send(index, payload);
      PublishNothing(before);
      assert before[index := before[index]] == before;
    }

    method HandleCommand(index: nat, text: string, clock: seq<string>)
      requires index < |clients|
      modifies this`clients, this`alertRules
      ensures Abs() == Serve(old(Abs()), index, ClassifyCommand(text), clock)
    {
      hide Serve, ParseAlertCommand, Lower, Trim, Render, NatText;
      var trimmed := TrimCopy(text);
      var lowered := Lower(trimmed);
      if "/alert" <= lowered {
        var rule := ParseAlertCommand(text);
        if rule.None? {
          Answer(index, ErrorText("expected /alert CPU>80% or /alert MEMORY>70%"), BadAlert, clock);
        } else {
          AddAlertRule(index, rule.value, clock);
        }
      } else if lowered == "/listalerts" {
        var listed := RulesEventToJson(alertRules);
        Answer(index, listed, ListRules, clock);
      } else if lowered == "/clients" {
        Answer(index, AckText("connected agents: " + NatText(|latestMetrics|)), CountHosts, clock);
      } else {
        Answer(index, ErrorText("unknown command"), UnknownCommand, clock);
      }
    }

    /** `handle_line`: the state machine's step for this line. */
    method HandleLine(index: nat, line: string, clock: seq<string>)
      requires index < |clients|
      modifies this`clients, this`latestMetrics, this`alertRules, this`activeAlerts
      ensures Abs() == Server.HandleLine(old(Abs()), index, line, clock)
    {
      hide Serve, ClassifyCommand, JsonGetString, DecodeMetric, Lower, Render;
      var kind := JsonGetString(line, "type").Or("");
      if kind == "register" {
        var role := Lower(JsonGetString(line, "role").Or(""));
        Register(index, role, JsonGetString(line, "host").Or(clients[index].peerLabel), clock);
      } else if kind == "metrics" && clients[index].role == Agent {
        HandleMetric(index, DecodeMetric(line, clients[index].declaredHost, Reading(clock, 0)), clock);
      } else if kind == "command" {
        HandleCommand(index, JsonGetString(line, "text").Or(""), clock);
      } else if kind == "chat" {
        var own := if clients[index].declaredHost == "" then clients[index].peerLabel else clients[index].declaredHost;
        HandleChat(index, ChatMessage(JsonGetString(line, "from").Or(own), JsonGetString(line, "text").Or(""),
                                      Reading(clock, 0)), clock);
      } else {
        Answer(index, ErrorText("unsupported message"), Unsupported, clock);
      }
    }

    // ---- read_client -----------------------------------------------------------------------------------------

    /** `read_client`: the chunk joins the buffer and every line that is then complete is taken off, trimmed
        and handled. As steps of the state machine: one receive, then one take per line. */
    method ReadClient(index: nat, chunk: string, clocks: seq<seq<string>>) returns (alive: bool)
      requires index < |clients|
      modifies this`clients, this`latestMetrics, this`alertRules, this`activeAlerts
      ensures Abs() == RunSteps(old(Abs()), ReadSteps(index, old(clients)[index].buffer, chunk, clocks))
      ensures Fds(clients) == old(Fds(clients))
      ensures alive <==> chunk != ""
    {
      hide Do, RunSteps, Split, FirstOf, HasLine;
      ghost var start := Abs();
      RunNothing(start);
      if chunk == "" {
        return false;
      }
      ghost var bytes := clients[index].buffer + chunk;
      ghost var n := |Split(bytes).lines|;
      clients := clients[index := clients[index].(buffer := clients[index].buffer + chunk)];
      ReceiveSets(start, index, chunk);
      FdsSame(start.clients, clients);
      var taken := 0;
      ghost var sofar := [Receive(index, chunk)];
      assert sofar + TakeLines(index, clocks, 0) == sofar;
      AfterSplit(bytes, 0);
      SomeLines(bytes);
      while HasNewline(clients[index].buffer)
        invariant index < |clients| && Fds(clients) == Fds(start.clients)
        invariant taken <= n && clients[index].buffer == After(bytes, taken)
        invariant HasLine(clients[index].buffer) <==> taken < n
        invariant Abs() == RunSteps(start, sofar + TakeLines(index, clocks, taken))
        decreases n - taken
      {
        ghost var step := TakeLine(index, ClockAt(clocks, taken));
        ghost var steps := sofar + TakeLines(index, clocks, taken);
        RunStepsAppend(start, steps, [step]);
        RunOne(Abs(), step);
        TakeLinesSnoc(index, clocks, taken);
        assert steps + [step] == sofar + TakeLines(index, clocks, taken + 1);
        TakeOne(index, ClockAt(clocks, taken));
        taken := taken + 1;
        AfterSplit(bytes, taken);
        SomeLines(After(bytes, taken));
      }
      return true;
    }

    method TakeOne(index: nat, clock: seq<string>)
      requires index < |clients| && HasLine(clients[index].buffer)
      modifies this`clients, this`latestMetrics, this`alertRules, this`activeAlerts
      ensures Abs() == Do(old(Abs()), TakeLine(index, clock))
      ensures Fds(clients) == old(Fds(clients)) && clients[index].buffer == FirstOf(old(clients)[index].buffer).1
    {
      hide Serve, Trim, Classify;
      ghost var before := Abs();
      var pending := clients[index].buffer;
      var newline := Span(pending, NotNewline);
      var line := TrimCopy(pending[..newline]);
      clients := clients[index := clients[index].(buffer := pending[newline + 1..])];
      ghost var t := Abs();
      assert t == SetBuffer(before, index, pending[newline + 1..]);
      FdsSame(before.clients, clients);
      if line != "" {
        HandleLine(index, line, clock);
        ServeFds(t, index, Classify(t.clients[index], line, clock), clock);
      }
    }

    // ---- connections ---------------------------------------------------------------------------------------------

    method CloseSocket(fd: int)
      requires fd in open
      modifies this`open, this`closed
      ensures open == old(open) - {fd} && closed == old(closed) + [fd]
    {
      open, closed := open - {fd}, closed + [fd];
    }

    /** `accept_connection`. The kernel never hands out a descriptor that is open; a negative one
        is a failed call. */
    method AcceptConnection(arrival: Arrival)
      requires Valid()
      modifies this`clients, this`open, this`accepted
      ensures Valid() && Abs() == RunSteps(old(Abs()), AcceptSteps(old(clients), listenFd, Some(arrival)))
      ensures accepted == old(accepted) + AcceptedBy(AcceptSteps(old(clients), listenFd, Some(arrival)))
      ensures Fds(clients) == old(Fds(clients)) + AcceptedBy(AcceptSteps(old(clients), listenFd, Some(arrival)))
    {
      hide RunSteps, Take, SetBuffer, NoneWaiting, AcceptedBy, Fds, Distinct;
      ghost var before := Abs();
      AcceptKeeps(before, listenFd, Some(arrival));
      RunNothing(before);
      RunOne(before, Accept(arrival.fd, arrival.peer));
      OneAccepted(arrival.fd, arrival.peer);
      if arrival.fd < 0 || arrival.fd in open {
        assert accepted + [] == accepted && Fds(clients) + [] == Fds(clients);
        return;
      }
      clients := clients + [Fresh(arrival.fd, arrival.peer)];
      open, accepted := open + {arrival.fd}, accepted + [arrival.fd];
      FdsSnoc(before.clients, Fresh(arrival.fd, arrival.peer));
    }

    /** `disconnect_client`: close, then erase. */
    method DisconnectClient(index: nat)
      requires Valid() && index < |clients|
      modifies this`clients, this`open, this`closed
      ensures Valid() && Abs() == Do(old(Abs()), Disconnect(index))
      ensures closed == old(closed) + [old(clients)[index].fd]
      ensures clients == Without(old(clients), index)
    {
      hide Take, Fresh, SetBuffer, Distinct, NoneWaiting;
      ghost var fds := Fds(clients);
      EndKeeps(Abs(), index);
      WithoutFd(clients, index);
      assert fds[index] == clients[index].fd;
      CloseSocket(clients[index].fd);
      clients := clients[..index] + clients[index + 1..];
    }

    /** The reverse loop over the marked indices. */
    method DisconnectMarked(marked: seq<nat>)
      requires Valid() && Marks(marked, |clients|)
      modifies this`clients, this`open, this`closed
      ensures Valid() && Abs() == RunSteps(old(Abs()), EndSteps(marked))
      ensures clients == EraseMarked(old(clients), marked)
    {
      hide Do, RunSteps, NoneWaiting, Distinct, Marks, EraseMarked, EndSteps, Without, Fds;
      ghost var start := Abs();
      var left := |marked|;
      assert marked[..left] == marked;
      while left > 0
        invariant left <= |marked| && Valid() && Marks(marked[..left], |clients|)
        invariant EraseMarked(clients, marked[..left]) == EraseMarked(start.clients, marked)
        invariant RunSteps(Abs(), EndSteps(marked[..left])) == RunSteps(start, EndSteps(marked))
      {
        EraseTurn(clients, marked, left);
        EndsStep(Abs(), marked, left);
        left := left - 1;
        DisconnectClient(marked[left]);
      }
      ErasedAll(Abs(), clients, marked);
    }

    // ---- run -------------------------------------------------------------------------------------------------------

    /** The loop over the clients after `select`: errored and ended connections are marked, ready ones
        are read; descriptors that were not watched are left alone. */
    method ReadReady(round: Round, watched: set<int>) returns (marked: seq<nat>)
      requires Valid()
      modifies this`clients, this`latestMetrics, this`alertRules, this`activeAlerts
      ensures Valid() && Fds(clients) == old(Fds(clients))
      ensures Abs() == RunSteps(old(Abs()), ReadySteps(round, watched, old(clients), |old(clients)|))
      ensures marked == MarkedOf(round, watched, Fds(clients))
    {
      hide Do, RunSteps, ReadSteps, NoneWaiting, Distinct, ReadySteps, MarkedOf, Fds;
      marked := [];
      ghost var start := Abs();
      ghost var fds := Fds(clients);
      ReadyStart(start, round, watched, fds);
      var index := 0;
      while index < |clients|
        invariant index <= |clients| == |start.clients| && Fds(clients) == fds
        invariant Abs() == RunSteps(start, ReadySteps(round, watched, start.clients, index))
        invariant marked == MarkedOf(round, watched, fds[..index])
      {
        var fd := clients[index].fd;
        FdAt(clients, index);
        ReadyTurn(start, round, watched, index);
        MarkedTurn(round, watched, fds, index);
        if fd in watched && fd in round.errored {
          marked := marked + [index];
        } else if fd in watched && fd in round.readable {
          var alive := ReadClient(index, round.readable[fd], ClocksOf(round, fd));
          if !alive {
            marked := marked + [index];
          }
        }
        index := index + 1;
      }
      ReadyKeeps(start, round, watched, |start.clients|);
      assert fds[..|fds|] == fds;
    }

    /** One turn of `run`, as the steps the turn's input determines. Only connections that were there before
        the turn are read; the survivors are the unmarked ones, in order, of those and the one just accepted:
        no descriptor that errored or ended is left, every other one is, and a valid arrival has joined. */
    method RunRound(round: Round)
      requires Valid()
      modifies this`clients, this`latestMetrics, this`alertRules, this`activeAlerts, this`open, this`accepted, this`closed
      ensures Valid() && Abs() == RunSteps(old(Abs()), RoundSteps(old(Abs()), listenFd, round))
      ensures accepted == old(accepted) + AcceptedBy(RoundSteps(old(Abs()), listenFd, round))
      ensures ReceivesBelow(RoundSteps(old(Abs()), listenFd, round), |old(clients)|)
      ensures var joined := old(Fds(clients)) + AcceptedBy(AcceptSteps(old(clients), listenFd, round.arrival));
              Fds(clients) == Unmarked(joined, MarkedOf(round, old(Watched(clients)), joined))
      ensures forall fd :: fd in Fds(clients) <==>
                || (fd in old(Fds(clients)) && fd !in round.errored && !(fd in round.readable && round.readable[fd] == ""))
                || (round.arrival.Some? && round.arrival.value.fd == fd && fd >= 0 && fd != listenFd && fd !in old(Fds(clients)))
    {
      hide Do, RunSteps, EraseMarked, Unmarked, Marks, ReceivesBelow, ReadySteps, EndSteps, MarkedOf, AcceptedBy, NoneWaiting,
           AcceptSteps;
      ghost var start := Abs();
      var watched := Watched(clients);
      ghost var accepts := AcceptSteps(clients, listenFd, round.arrival);
      if round.arrival.Some? {
        AcceptConnection(round.arrival.value);
      } else {
        NoArrival(start, listenFd);
        assert accepted + [] == accepted && Fds(clients) + [] == Fds(clients);
      }
      ghost var joined := Abs();
      assert joined == RunSteps(start, accepts);
      ghost var served := ReadySteps(round, watched, clients, |clients|);
      var marked := ReadReady(round, watched);
      MarksOf(round, watched, Fds(clients));
      EraseIsFilter(clients, marked);
      UnmarkedFds(clients, marked);
      DisconnectMarked(marked);
      RunStepsAppend(start, accepts, served);
      RunStepsAppend(start, accepts + served, EndSteps(marked));
      RoundAccepts(start, listenFd, round);
      RoundReads(start, listenFd, round);
      TurnSurvivors(start, listenFd, round);
    }

    /** `shutdown_all`: every client, then the listener. */
    method ShutdownAll()
      requires Valid()
      modifies this`clients, this`open, this`closed, this`listenFd
      ensures clients == [] && listenFd == NO_FD && open == {}
      ensures multiset(closed) == multiset(accepted) + multiset{old(listenFd)}
    {
      hide NoneWaiting, Fds, Distinct;
      ghost var fds := Fds(clients);
      ghost var before := closed;
      assert fds[0..] == fds;
      var n := |clients|;
      for i := 0 to n
        invariant clients == old(clients) && listenFd == old(listenFd)
        invariant closed == before + fds[..i]
        invariant forall fd :: fd in open <==> fd == listenFd || fd in fds[i..]
      {
        FdAt(clients, i);
        NotAgain(fds, i);
        CloseSocket(clients[i].fd);
        assert fds[..i + 1] == fds[..i] + [fds[i]];
      }
      assert fds[..n] == fds;
      assert |fds[n..]| == 0;
      assert forall fd :: fd in open <==> fd == listenFd;
      clients := [];
      assert open == {listenFd};
      CloseSocket(listenFd);
      listenFd := NO_FD;
    }

    /** The loop of `run`: the state is that of the steps the turns determine, and the accepted descriptors
        are theirs. */
    method Loop(rounds: seq<Round>)
      requires Valid() && accepted == [] && Abs() == START
      modifies this`clients, this`latestMetrics, this`alertRules, this`activeAlerts, this`open, this`accepted, this`closed
      ensures Valid() && Abs() == RunSteps(START, StepsOf(listenFd, rounds))
      ensures accepted == AcceptedBy(StepsOf(listenFd, rounds))
    {
      hide Do, RunSteps, RoundSteps, AcceptedBy, NoneWaiting, Distinct;
      RunNothing(START);
      AcceptsNothing([]);
      for n := 0 to |rounds|
        invariant Valid() && listenFd == old(listenFd)
        invariant Abs() == RunSteps(START, StepsOf(listenFd, rounds[..n]))
        invariant accepted == AcceptedBy(StepsOf(listenFd, rounds[..n]))
      {
        assert rounds[..n + 1][..n] == rounds[..n];
        ghost var before := StepsOf(listenFd, rounds[..n]);
        ghost var more := RoundSteps(Abs(), listenFd, rounds[n]);
        RunStepsAppend(START, before, more);
        AcceptedAppend(before, more);
        RunRound(rounds[n]);
      }
      assert rounds[..|rounds|] == rounds;
    }

    /** `run`: turns until the flag drops, then shutdown. The alerting state is that of the steps the turns
        determine; every descriptor they accept was closed exactly once in the end, and the listener too. */
    method Run(rounds: seq<Round>)
      requires Valid() && accepted == [] && closed == [] && Abs() == START
      modifies this
      ensures clients == [] && open == {} && listenFd == NO_FD
      ensures Core(latestMetrics, alertRules, activeAlerts) == RunSteps(START, StepsOf(old(listenFd), rounds)).core
      ensures accepted == AcceptedBy(StepsOf(old(listenFd), rounds))
      ensures multiset(closed) == multiset(accepted) + multiset{old(listenFd)}
    {
      hide RunSteps, StepsOf, AcceptedBy, NoneWaiting, Distinct;
      Loop(rounds);
      ShutdownAll();
    }
  }

  lemma NotAgain(fds: seq<int>, i: nat)
    requires Distinct(fds) && i < |fds|
    ensures fds[i] !in fds[i + 1..] && forall fd :: fd in fds[i..] <==> fd == fds[i] || fd in fds[i + 1..]
  {
    assert fds[i..] == [fds[i]] + fds[i + 1..];
  }

  lemma FdsSnoc(clients: seq<Client>, c: Client)
    ensures Fds(clients + [c]) == Fds(clients) + [c.fd]
    ensures Distinct(Fds(clients)) && c.fd !in Fds(clients) ==> Distinct(Fds(clients + [c]))
  {}

  lemma FdAt(clients: seq<Client>, i: nat)
    requires i < |clients|
    ensures Fds(clients)[i] == clients[i].fd
  {}

  lemma ReadyStart(s: State, round: Round, watched: set<int>, fds: seq<int>)
    ensures RunSteps(s, ReadySteps(round, watched, s.clients, 0)) == s && MarkedOf(round, watched, fds[..0]) == []
  {
    RunNothing(s);
  }

  /** One turn of the loop over the connections. */
  lemma ReadyTurn(s: State, round: Round, watched: set<int>, i: nat)
    requires i < |s.clients| && NoneWaiting(s)
    ensures var c := s.clients[i];
            var t := RunSteps(s, ReadySteps(round, watched, s.clients, i));
            && |t.clients| == |s.clients| && t.clients[i].fd == c.fd
            && RunSteps(s, ReadySteps(round, watched, s.clients, i + 1)) ==
               if c.fd in watched && c.fd !in round.errored && c.fd in round.readable
               then RunSteps(t, ReadSteps(i, t.clients[i].buffer, round.readable[c.fd], ClocksOf(round, c.fd))) else t
  {
    hide RunSteps, ReadSteps, NoneWaiting;
    var sofar := ReadySteps(round, watched, s.clients, i);
    ReadyKeeps(s, round, watched, i);
    RunStepsAppend(s, sofar, ClientSteps(round, watched, s.clients[i], i));
    RunNothing(RunSteps(s, sofar));
  }

  lemma MarkedTurn(round: Round, watched: set<int>, fds: seq<int>, i: nat)
    requires i < |fds|
    ensures MarkedOf(round, watched, fds[..i + 1]) ==
            MarkedOf(round, watched, fds[..i]) + if Ends(round, watched, fds[i]) then [i] else []
  {
    assert fds[..i + 1][..i] == fds[..i];
  }

  lemma OneAccepted(fd: int, peer: string)
    ensures AcceptedBy([Accept(fd, peer)]) == [fd] && AcceptedBy([]) == []
  {
    assert [Accept(fd, peer)][..0] == [];
  }

  lemma NoArrival(s: State, listener: int)
    ensures AcceptSteps(s.clients, listener, None) == [] && RunSteps(s, []) == s && AcceptedBy([]) == []
  {}

  lemma EndsStep(s: State, marked: seq<nat>, left: nat)
    requires 0 < left <= |marked|
    ensures var n := left - 1;
            RunSteps(s, EndSteps(marked[..left])) == RunSteps(Do(s, Disconnect(marked[n])), EndSteps(marked[..n]))
  {
    hide RunSteps, Do;
    var n := left - 1;
    assert marked[..left][..n] == marked[..n] && marked[..left][n] == marked[n];
    RunStepsAppend(s, [Disconnect(marked[n])], EndSteps(marked[..n]));
    RunOne(s, Disconnect(marked[n]));
  }

  lemma EraseTurn<T>(xs: seq<T>, marked: seq<nat>, left: nat)
    requires 0 < left <= |marked| && Marks(marked[..left], |xs|)
    ensures var n := left - 1;
            && marked[n] < |xs| && |Without(xs, marked[n])| == |xs| - 1 && Marks(marked[..n], |xs| - 1)
            && EraseMarked(xs, marked[..left]) == EraseMarked(Without(xs, marked[n]), marked[..n])
  {
    var n := left - 1;
    assert marked[..left][..n] == marked[..n] && marked[..left][n] == marked[n];
    MarksInit(marked[..left], |xs|);
  }

  lemma ErasedAll<T>(s: State, xs: seq<T>, marked: seq<nat>)
    ensures Marks(marked[..0], |xs|) && EraseMarked(xs, marked[..0]) == xs && RunSteps(s, EndSteps(marked[..0])) == s
  {
    RunNothing(s);
  }

  lemma {:induction false} MarksOf(round: Round, watched: set<int>, fds: seq<int>)
    ensures Marks(MarkedOf(round, watched, fds), |fds|)
    ensures forall i: nat :: i < |fds| ==> (i in MarkedOf(round, watched, fds) <==> Ends(round, watched, fds[i]))
  {
    hide Ends;
    if fds != [] {
      var init := fds[..|fds| - 1];
      MarksOf(round, watched, init);
      assert forall i: nat :: i < |init| ==> init[i] == fds[i];
    }
  }

  /** Every receive is of one of the first n connections. */
  ghost predicate ReceivesBelow(steps: seq<Step>, n: nat) {
    forall k :: 0 <= k < |steps| && steps[k].Receive? ==> steps[k].index < n
  }

  ghost predicate ReadsWatched(step: Step, watched: set<int>, fds: seq<int>) {
    (step.Receive? || step.TakeLine?) && step.index < |fds| && fds[step.index] in watched
  }

  lemma {:induction false} ReadyReads(round: Round, watched: set<int>, clients: seq<Client>, n: nat)
    requires n <= |clients|
    ensures forall step :: step in ReadySteps(round, watched, clients, n) ==> ReadsWatched(step, watched, Fds(clients))
  {
    hide ClientSteps;
    if n > 0 {
      ReadyReads(round, watched, clients, n - 1);
      ClientReads(round, watched, clients[n - 1], n - 1);
    }
  }

  lemma ClientReads(round: Round, watched: set<int>, c: Client, i: nat)
    ensures forall step :: step in ClientSteps(round, watched, c, i) ==>
              (step.Receive? || step.TakeLine?) && step.index == i && c.fd in watched
  {
    hide Split;
  }

  lemma ReadsAreOld(steps: seq<Step>, watched: set<int>, first: seq<int>, fds: seq<int>)
    requires first <= fds && Distinct(fds) && watched == set fd | fd in first
    requires forall step :: step in steps ==> ReadsWatched(step, watched, fds)
    ensures ReceivesBelow(steps, |first|)
  {
    forall k | 0 <= k < |steps| && steps[k].Receive?
      ensures steps[k].index < |first|
    {
      assert steps[k] in steps;
      assert fds[steps[k].index] in first;
      var i :| 0 <= i < |first| && first[i] == fds[steps[k].index];
      assert fds[i] == first[i];
    }
  }

  lemma JoinedFds(s: State, listener: int, arrival: Option<Arrival>)
    requires Distinct(Fds(s.clients))
    ensures var accepts := AcceptSteps(s.clients, listener, arrival);
            var fds := Fds(RunSteps(s, accepts).clients);
            fds == Fds(s.clients) + AcceptedBy(accepts) && Distinct(fds)
  {
    hide RunSteps, Take;
    RunNothing(s);
    if arrival.Some? {
      RunOne(s, Accept(arrival.value.fd, arrival.value.peer));
      OneAccepted(arrival.value.fd, arrival.value.peer);
      assert Fds(s.clients + [Fresh(arrival.value.fd, arrival.value.peer)]) == Fds(s.clients) + [arrival.value.fd];
    }
    assert Fds(s.clients) + [] == Fds(s.clients);
  }

  /** A connection accepted in a turn is not read in that turn. */
  lemma RoundReads(s: State, listener: int, round: Round)
    requires Distinct(Fds(s.clients))
    ensures ReceivesBelow(RoundSteps(s, listener, round), |s.clients|)
  {
    hide RunSteps, ReadySteps, EndSteps, MarkedOf, Distinct, ReadsWatched;
    var watched := Watched(s.clients);
    var accepts := AcceptSteps(s.clients, listener, round.arrival);
    var joined := RunSteps(s, accepts).clients;
    JoinedFds(s, listener, round.arrival);
    ReadyReads(round, watched, joined, |joined|);
    ReadsAreOld(ReadySteps(round, watched, joined, |joined|), watched, Fds(s.clients), Fds(joined));
    CleanEnds(MarkedOf(round, watched, Fds(joined)));
  }

  lemma {:induction false} UnmarkedHas(xs: seq<int>, marked: seq<nat>, fd: int)
    ensures fd in Unmarked(xs, marked) <==> exists i: nat :: i < |xs| && xs[i] == fd && i !in marked
  {
    if xs != [] {
      var init := xs[..|xs| - 1];
      UnmarkedHas(init, marked, fd);
      assert forall i: nat :: i < |init| ==> init[i] == xs[i];
    }
  }

  /** The descriptors left after a turn. */
  lemma TurnSurvivors(s: State, listener: int, round: Round)
    requires Distinct(Fds(s.clients))
    ensures var first := Fds(s.clients);
            var joined := first + AcceptedBy(AcceptSteps(s.clients, listener, round.arrival));
            forall fd :: fd in Unmarked(joined, MarkedOf(round, Watched(s.clients), joined)) <==>
              || (fd in first && fd !in round.errored && !(fd in round.readable && round.readable[fd] == ""))
              || (round.arrival.Some? && round.arrival.value.fd == fd && fd >= 0 && fd != listener && fd !in first)
  {
    hide Unmarked, MarkedOf, Fds, Marks;
    var first, watched := Fds(s.clients), Watched(s.clients);
    var accepts := AcceptSteps(s.clients, listener, round.arrival);
    var joined := first + AcceptedBy(accepts);
    if round.arrival.Some? {
      OneAccepted(round.arrival.value.fd, round.arrival.value.peer);
    }
    MarksOf(round, watched, joined);
    forall fd
      ensures fd in Unmarked(joined, MarkedOf(round, watched, joined)) <==> fd in joined && !Ends(round, watched, fd)
    {
      UnmarkedHas(joined, MarkedOf(round, watched, joined), fd);
    }
  }

  /** A turn accepts at most its arrival. */
  lemma RoundAccepts(s: State, listener: int, round: Round)
    ensures AcceptedBy(RoundSteps(s, listener, round)) == AcceptedBy(AcceptSteps(s.clients, listener, round.arrival))
  {
    hide RunSteps, ReadySteps, EndSteps, MarkedOf, AcceptSteps, AcceptedBy, ReadsWatched;
    var watched := Watched(s.clients);
    var accepts := AcceptSteps(s.clients, listener, round.arrival);
    var joined := RunSteps(s, accepts).clients;
    var served := ReadySteps(round, watched, joined, |joined|);
    var ends := EndSteps(MarkedOf(round, watched, Fds(joined)));
    ReadyReads(round, watched, joined, |joined|);
    CleanEnds(MarkedOf(round, watched, Fds(joined)));
    ReadsAcceptNothing(served, watched, Fds(joined));
    AcceptsNothing(ends);
    AcceptedAppend(accepts, served);
    AcceptedAppend(accepts + served, ends);
    assert AcceptedBy(accepts) + [] + [] == AcceptedBy(accepts);
  }

  lemma ReadsAcceptNothing(steps: seq<Step>, watched: set<int>, fds: seq<int>)
    requires forall step :: step in steps ==> ReadsWatched(step, watched, fds)
    ensures AcceptedBy(steps) == []
  {
    hide AcceptedBy;
    assert forall k :: 0 <= k < |steps| ==> steps[k] in steps;
    AcceptsNothing(steps);
  }

  lemma {:induction false} UnmarkedFds(clients: seq<Client>, marked: seq<nat>)
    ensures Fds(Unmarked(clients, marked)) == Unmarked(Fds(clients), marked)
  {
    if clients != [] {
      UnmarkedFds(clients[..|clients| - 1], marked);
      assert Fds(clients)[..|clients| - 1] == Fds(clients[..|clients| - 1]);
    }
  }

  lemma WithoutFd(clients: seq<Client>, i: nat)
    requires i < |clients| && Distinct(Fds(clients))
    ensures var fds := Fds(clients);
            var rest := Fds(Without(clients, i));
            && rest == Without(fds, i) && Distinct(rest) && fds[i] !in rest
            && (forall fd :: fd in fds <==> fd == fds[i] || fd in rest)
            && multiset(fds) == multiset(rest) + multiset{fds[i]}
  {
    var fds := Fds(clients);
    assert Fds(Without(clients, i)) == Without(fds, i);
    assert fds == fds[..i] + [fds[i]] + fds[i + 1..];
  }

  predicate HasNewline(buffer: string)
    ensures HasNewline(buffer) <==> HasLine(buffer)
  {
    Span(buffer, NotNewline) < |buffer|
  }

  lemma FdsSame(a: seq<Client>, b: seq<Client>)
    requires |a| == |b| && forall k :: 0 <= k < |a| ==> a[k].fd == b[k].fd
    ensures Fds(a) == Fds(b)
  {}

  lemma SendThrice(clients: seq<Client>, i: nat, a: string, b: string, c: string)
    requires i < |clients|
    ensures SendTo(SendTo(SendTo(clients, i, [a]), i, [b]), i, [c]) == SendTo(clients, i, [a] + [b, c])
  {
    assert clients[i].out + [a] + [b] + [c] == clients[i].out + ([a] + [b, c]);
  }

  // ---- the two looping event printers ---------------------------------------------------------------------

  lemma Pair(a: Field, b: Field)
    ensures Render(JObj([a, b])) == "{" + (RenderField(a) + ("," + RenderField(b))) + "}"
  {
    hide RenderField;
    assert [a, b][1..] == [b];
    assert RenderFields([b]) == RenderField(b);
    assert RenderFields([a, b]) == RenderField(a) + ("," + RenderField(b));
  }

  lemma Triple(a: Field, b: Field, c: Field)
    ensures Render(JObj([a, b, c])) == "{" + (RenderField(a) + ("," + (RenderField(b) + ("," + RenderField(c))))) + "}"
  {
    hide RenderField;
    assert [a, b, c][1..] == [b, c] && [b, c][1..] == [c];
    assert RenderFields([c]) == RenderField(c);
    assert RenderFields([b, c]) == RenderField(b) + ("," + RenderField(c));
    assert RenderFields([a, b, c]) == RenderField(a) + ("," + RenderFields([b, c]));
  }

  method RulesEventToJson(rules: seq<AlertRule>) returns (out: string)
    ensures out == RulesText(rules)
  {
    hide RenderItems, RulesJson;
    var items := PrintRules(rules);
    Pair(Str("type", "rules"), Field("items", JArr(RulesJson(rules))));
    out := "{" + (RenderField(Str("type", "rules")) + ("," + (Quoted("items") + (":" + ("[" + items + "]"))))) + "}";
  }

  method SnapshotEventToJson(stamp: string, latest: map<string, Metric>) returns (out: string)
    ensures out == SnapshotText(stamp, latest)
  {
    hide RenderItems, MetricsJson;
    var hosts := SortHosts(latest.Keys);
    assert forall i :: 0 <= i < |hosts| ==> hosts[i] in hosts;
    var ms := seq(|hosts|, i requires 0 <= i < |hosts| => latest[hosts[i]]);
    assert ms == Listing(latest);
    var items := PrintMetrics(ms);
    Triple(Str("type", "snapshot"), Str("timestamp", stamp), Field("metrics", JArr(MetricsJson(ms))));
    out := "{" + (RenderField(Str("type", "snapshot")) + ("," + (RenderField(Str("timestamp", stamp))
           + ("," + (Quoted("metrics") + (":" + ("[" + items + "]"))))))) + "}";
  }
}
