/** The dashboard's lock discipline: the connector thread, any number of `snapshot` calls and any
    number of `upload_latest_alert` calls, interleaved write by write and field by field. A step
    inside a `with self._lock` block does not look at the lock; only entering the block waits for it. */
module Locking {
  import opened Text
  import opened Json
  import opened Dashboard

  // ---- the connector thread ----------------------------------------------------------------------

  /** What the connector thread does under the lock: the connected flag, or one event. */
  datatype Job = Connect(up: bool) | Event(event: Json, env: Env)

  function DoJob(b: Board, job: Job): Board {
    match job
    case Connect(up) => b.(connected := up)
    case Event(event, env) => HandleEvent(b, event, env).board
  }

  /** One assignment or list update on the shared state. */
  datatype Write =
    | SetConnected(up: bool)
    | Note(now: string)
    | SetMetrics(metrics: map<string, Json>)
    | PutMetric(host: string, metric: Json)
    | AppendAlert(alert: Json)
    | TrimAlerts
    | AppendChat(item: ChatItem)
    | TrimChat
    | SetRules(rules: Json)
    | SetAws(result: Json)

  function Perform(b: Board, w: Write): Board {
    match w
    case SetConnected(up) => b.(connected := up)
    case Note(now) => b.(lastEvent := Some(now))
    case SetMetrics(m) => b.(metrics := m)
    case PutMetric(host, metric) => b.(metrics := b.metrics[host := metric])
    case AppendAlert(alert) => b.(alerts := b.alerts + [alert])
    case TrimAlerts => b.(alerts := Last(b.alerts, ALERT_WINDOW))
    case AppendChat(item) => b.(chat := b.chat + [item])
    case TrimChat => b.(chat := Last(b.chat, CHAT_WINDOW))
    case SetRules(rules) => b.(rules := rules)
    case SetAws(result) => b.(aws := result)
  }

  function PerformAll(b: Board, ws: seq<Write>): Board
    decreases |ws|
  {
    if ws == [] then b else PerformAll(Perform(b, ws[0]), ws[1..])
  }

  /** The writes of a branch of `_handle_event` after the time was noted; none where it raises. */
  function BranchWrites(kind: string, fields: seq<Field>, env: Env): seq<Write> {
    if kind == "snapshot" then
      var items := Get(fields, "metrics").Or(JArr([]));
      if items.JArr? && ByHost(items.items).Some? then [SetMetrics(ByHost(items.items).value)] else []
    else if kind == "metric" then
      var data := Get(fields, "data").Or(JObj([]));
      if !data.JObj? then [] else
        (match Get(data.fields, "host")
         case Some(JStr(h)) => if h == "" then [] else [PutMetric(h, data)]
         case _ => [])
    else if kind == "alert" then
      [AppendAlert(Get(fields, "data").Or(JObj([]))), TrimAlerts, SetAws(env.upload)]
    else if kind == "chat" then [AppendChat(ChatOf(fields, env.now)), TrimChat]
    else if kind == "rules" then [SetRules(Get(fields, "items").Or(JArr([])))]
    else if kind == "ack" || kind == "error" then [AppendChat(NoticeOf(kind, fields, env.now)), TrimChat]
    else []
  }

  function Writes(job: Job): seq<Write> {
    match job
    case Connect(up) => [SetConnected(up)]
    case Event(event, env) =>
      if !event.JObj? then [] else
        match Get(event.fields, "type")
        case Some(JStr(kind)) => [Note(env.now)] + BranchWrites(kind, event.fields, env)
        case _ => [Note(env.now)]
  }

  lemma PerformThree(b: Board, x: Write, y: Write, z: Write)
    ensures PerformAll(b, []) == b
    ensures PerformAll(b, [x]) == Perform(b, x)
    ensures PerformAll(b, [x, y]) == Perform(Perform(b, x), y)
    ensures PerformAll(b, [x, y, z]) == Perform(Perform(Perform(b, x), y), z)
  {
    hide Perform;
    assert [x, y, z][1..] == [y, z] && [x, y][1..] == [y] && [y, z][1..] == [z];
    assert PerformAll(Perform(Perform(b, x), y), [z]) == Perform(Perform(Perform(b, x), y), z);
    assert PerformAll(Perform(b, x), [y]) == Perform(Perform(b, x), y);
  }

  lemma BranchSerial(b: Board, kind: string, fields: seq<Field>, env: Env)
    ensures PerformAll(b, BranchWrites(kind, fields, env)) == Dispatch(b, kind, fields, env).board
  {
    hide PerformAll, Get, ByHost, Last, ChatOf, NoticeOf;
    var ws := BranchWrites(kind, fields, env);
    var x := if |ws| > 0 then ws[0] else TrimChat;
    var y := if |ws| > 1 then ws[1] else TrimChat;
    var z := if |ws| > 2 then ws[2] else TrimChat;
    assert ws == [] || ws == [x] || ws == [x, y] || ws == [x, y, z];
    PerformThree(b, x, y, z);
  }

  /** Uninterrupted, the writes of a job are the job: `_handle_event` refined to single writes. */
  lemma JobSerial(b: Board, job: Job)
    ensures PerformAll(b, Writes(job)) == DoJob(b, job)
  {
    hide BranchWrites, Dispatch, Get;
    PerformThree(b, SetConnected(job.Connect? && job.up), TrimChat, TrimChat);
    if job.Event? && job.event.JObj? {
      var now := Note(job.env.now);
      PerformThree(b, now, TrimChat, TrimChat);
      match Get(job.event.fields, "type")
      case Some(JStr(kind)) =>
        var ws := BranchWrites(kind, job.event.fields, job.env);
        assert ([now] + ws)[0] == now && ([now] + ws)[1..] == ws;
        BranchSerial(Perform(b, now), kind, job.event.fields, job.env);
      case _ =>
    }
  }

  // ---- all the threads ------------------------------------------------------------------------------

  /** A completed locked block that wrote: a connector job, or the store of an upload's result. */
  datatype Section = Done(job: Job) | Stored(result: Json)

  datatype Connector = Outside | Inside(left: seq<Write>)

  /** A request thread. `snapshot`: copying field after field. `upload_latest_alert`: the first block
      before and after its read, the upload outside the lock, the second block before and after its
      write. */
  datatype Thread =
    | Copying(fields: nat, copy: Board)
    | Reading
    | HasRead(latest: Option<Json>)
    | Uploading(alert: Json)
    | Uploaded(result: Json)
    | Storing(result: Json)
    | HasStored(result: Json)
  {
    predicate Locked() { !Uploading? && !Uploaded? }
  }

  datatype Owner = Free | ByConnector | ByThread(id: nat)

  /** A finished snapshot, with how many sections had completed when its lock was released. */
  datatype Taken = Taken(board: Board, at: nat)

  /** An alert handed to the publisher, with the number of sections completed when it was read. */
  datatype Sent = Sent(alert: Json, at: nat)

  datatype System = System(
    board: Board,
    owner: Owner,
    connector: Connector,
    done: nat,
    threads: map<nat, Thread>,
    log: seq<Section>,
    taken: seq<Taken>,
    sent: seq<Sent>)

  datatype Action =
    | Enter                       // the connector thread takes the lock for its next job
    | Assign                      // its next write
    | Leave                       // end of its block, normal or by an exception
    | StartCopy(id: nat)
    | CopyField(id: nat)
    | EndCopy(id: nat)
    | StartRead(id: nat)
    | ReadLast(id: nat)
    | EndRead(id: nat)
    | Publish(id: nat, result: Json)
    | StartStore(id: nat)
    | Store(id: nat)
    | EndStore(id: nat)

  const FIELDS: nat := 7

  /** `deepcopy` of one more field of the shared state. */
  function CopyNext(copy: Board, from: Board, k: nat): Board {
    if k == 0 then copy.(connected := from.connected)
    else if k == 1 then copy.(lastEvent := from.lastEvent)
    else if k == 2 then copy.(metrics := from.metrics)
    else if k == 3 then copy.(alerts := from.alerts)
    else if k == 4 then copy.(chat := from.chat)
    else if k == 5 then copy.(rules := from.rules)
    else copy.(aws := from.aws)
  }

  const BLANK := Board(false, None, map[], [], [], JArr([]), JObj([]))

  /** Python's truth of an alert: `if not latest` also turns away an empty one. */
  predicate Truthy(j: Json) {
    match j
    case JStr(text) => text != ""
    case JNum(token) => exists i :: 0 <= i < |token| && '1' <= token[i] <= '9'
    case JArr(items) => items != []
    case JObj(fields) => fields != []
  }

  function LastAlert(b: Board): Option<Json> {
    if b.alerts == [] then None else Some(b.alerts[|b.alerts| - 1])
  }

  ghost function ConnectorStep(s: System, jobs: seq<Job>, a: Action): System {
    match a
    case Enter =>
      if s.connector.Outside? && s.owner.Free? && s.done < |jobs|
      then s.(owner := ByConnector, connector := Inside(Writes(jobs[s.done]))) else s
    case Assign =>
      if s.connector.Inside? && s.connector.left != []
      then s.(board := Perform(s.board, s.connector.left[0]), connector := Inside(s.connector.left[1..])) else s
    case Leave =>
      if s.connector == Inside([]) && s.done < |jobs|
      then s.(owner := Free, connector := Outside, done := s.done + 1, log := s.log + [Done(jobs[s.done])]) else s
    case _ => s
  }

  ghost function Become(s: System, id: nat, t: Thread): System {
    s.(threads := s.threads[id := t])
  }

  ghost function End(s: System, id: nat): System {
    s.(threads := s.threads - {id}, owner := Free)
  }

  ghost function ThreadStep(s: System, a: Action): System {
    match a
    case StartCopy(id) =>
      if id !in s.threads && s.owner.Free?
      then Become(s, id, Copying(0, BLANK)).(owner := ByThread(id)) else s
    case CopyField(id) =>
      if id in s.threads && s.threads[id].Copying? && s.threads[id].fields < FIELDS
      then Become(s, id, Copying(s.threads[id].fields + 1, CopyNext(s.threads[id].copy, s.board, s.threads[id].fields)))
      else s
    case EndCopy(id) =>
      if id in s.threads && s.threads[id].Copying? && s.threads[id].fields == FIELDS
      then End(s, id).(taken := s.taken + [Taken(s.threads[id].copy, |s.log|)]) else s
    case StartRead(id) =>
      if id !in s.threads && s.owner.Free? then Become(s, id, Reading).(owner := ByThread(id)) else s
    case ReadLast(id) =>
      if id in s.threads && s.threads[id].Reading? then Become(s, id, HasRead(LastAlert(s.board))) else s
    case EndRead(id) =>
      if id !in s.threads || !s.threads[id].HasRead? then s
      else if s.threads[id].latest.Some? && Truthy(s.threads[id].latest.value)
      then Become(s, id, Uploading(s.threads[id].latest.value))
             .(owner := Free, sent := s.sent + [Sent(s.threads[id].latest.value, |s.log|)])
      else End(s, id)
    case Publish(id, result) =>
      if id in s.threads && s.threads[id].Uploading? then Become(s, id, Uploaded(result)) else s
    case StartStore(id) =>
      if id in s.threads && s.threads[id].Uploaded? && s.owner.Free?
      then Become(s, id, Storing(s.threads[id].result)).(owner := ByThread(id)) else s
    case Store(id) =>
      if id in s.threads && s.threads[id].Storing?
      then Become(s, id, HasStored(s.threads[id].result)).(board := s.board.(aws := s.threads[id].result)) else s
    case EndStore(id) =>
      if id in s.threads && s.threads[id].HasStored?
      then End(s, id).(log := s.log + [Stored(s.threads[id].result)]) else s
    case _ => s
  }

  ghost function Act(s: System, jobs: seq<Job>, a: Action): System {
    if a.Enter? || a.Assign? || a.Leave? then ConnectorStep(s, jobs, a) else ThreadStep(s, a)
  }

  ghost function Interleave(s: System, jobs: seq<Job>, actions: seq<Action>): System {
    if actions == [] then s else
      Act(Interleave(s, jobs, actions[..|actions| - 1]), jobs, actions[|actions| - 1])
  }

  ghost function Begin(b: Board): System {
    System(b, Free, Outside, 0, map[], [], [], [])
  }

  // ---- the serial reference ---------------------------------------------------------------------------

  /** The sections run one after another, without threads or locks. */
  ghost function Serial(b: Board, log: seq<Section>): Board {
    if log == [] then b else DoSection(Serial(b, log[..|log| - 1]), log[|log| - 1])
  }

  ghost function DoSection(b: Board, section: Section): Board {
    if section.Done? then DoJob(b, section.job) else b.(aws := section.result)
  }

  ghost function JobsOf(log: seq<Section>): seq<Job> {
    if log == [] then [] else JobsOf(log[..|log| - 1]) + JobIn(log[|log| - 1])
  }

  ghost function JobIn(section: Section): seq<Job> {
    if section.Done? then [section.job] else []
  }

  ghost function AfterJobs(b: Board, jobs: seq<Job>): Board {
    if jobs == [] then b else DoJob(AfterJobs(b, jobs[..|jobs| - 1]), jobs[|jobs| - 1])
  }

  // ---- the invariant ------------------------------------------------------------------------------------

  /** Mutual exclusion: who is inside a locked block is who owns the lock. */
  ghost predicate Exclusive(s: System) {
    && (s.connector.Inside? <==> s.owner == ByConnector)
    && (forall id :: id in s.threads ==> (s.threads[id].Locked() <==> s.owner == ByThread(id)))
    && (s.owner.ByThread? ==> s.owner.id in s.threads)
  }

  /** The board is the serial one, up to what the owner of the lock has already written. */
  ghost predicate Tracked(s: System, start: Board, jobs: seq<Job>) {
    var whole := Serial(start, s.log);
    match s.owner
    case Free => s.board == whole
    case ByConnector =>
      s.connector.Inside? && s.done < |jobs| && PerformAll(s.board, s.connector.left) == DoJob(whole, jobs[s.done])
    case ByThread(id) =>
      id in s.threads &&
      (match s.threads[id]
       case HasStored(result) => s.board == whole.(aws := result)
       case Copying(k, copy) => s.board == whole && k <= FIELDS && CopiedSoFar(k, copy, whole)
       case HasRead(latest) => s.board == whole && latest == LastAlert(whole)
       case _ => s.board == whole)
  }

  ghost predicate CopiedSoFar(k: nat, copy: Board, from: Board) {
    && (k > 0 ==> copy.connected == from.connected)
    && (k > 1 ==> copy.lastEvent == from.lastEvent)
    && (k > 2 ==> copy.metrics == from.metrics)
    && (k > 3 ==> copy.alerts == from.alerts)
    && (k > 4 ==> copy.chat == from.chat)
    && (k > 5 ==> copy.rules == from.rules)
    && (k > 6 ==> copy.aws == from.aws)
  }

  ghost predicate Outputs(s: System, start: Board) {
    && (forall i :: 0 <= i < |s.taken| ==>
          s.taken[i].at <= |s.log| && s.taken[i].board == Serial(start, s.log[..s.taken[i].at]))
    && (forall i, j :: 0 <= i < j < |s.taken| ==> s.taken[i].at <= s.taken[j].at)
    && (forall i :: 0 <= i < |s.sent| ==>
          && s.sent[i].at <= |s.log| && Truthy(s.sent[i].alert)
          && Some(s.sent[i].alert) == LastAlert(Serial(start, s.log[..s.sent[i].at])))
  }

  ghost predicate Progress(s: System, jobs: seq<Job>) {
    s.done <= |jobs| && JobsOf(s.log) == jobs[..s.done]
  }

  ghost predicate Atomic(s: System, start: Board, jobs: seq<Job>) {
    Exclusive(s) && Tracked(s, start, jobs) && Outputs(s, start) && Progress(s, jobs)
  }

  lemma CopyOneMore(k: nat, copy: Board, from: Board)
    requires k < FIELDS && CopiedSoFar(k, copy, from)
    ensures CopiedSoFar(k + 1, CopyNext(copy, from, k), from)
  {}

  lemma SerialSnoc(start: Board, log: seq<Section>, section: Section)
    ensures Serial(start, log + [section]) == DoSection(Serial(start, log), section)
    ensures JobsOf(log + [section]) == JobsOf(log) + JobIn(section)
  {
    hide DoJob;
    assert (log + [section])[..|log|] == log;
  }

  /** A longer log keeps what was said about its prefixes. */
  lemma OutputsKept(s: System, t: System, start: Board, section: Section)
    requires Outputs(s, start) && t.taken == s.taken && t.sent == s.sent && t.log == s.log + [section]
    ensures Outputs(t, start)
  {
    hide Serial;
    forall n | 0 <= n <= |s.log|
      ensures t.log[..n] == s.log[..n]
    {}
  }

  lemma LogWhole(log: seq<Section>)
    ensures log[..|log|] == log
  {}

  lemma ConnectorAtomic(s: System, start: Board, jobs: seq<Job>, a: Action)
    requires Atomic(s, start, jobs)
    ensures Atomic(ConnectorStep(s, jobs, a), start, jobs)
  {
    hide Serial, JobsOf, DoJob, Perform, Writes, Outputs, CopiedSoFar;
    var t := ConnectorStep(s, jobs, a);
    if a.Enter? && t != s {
      JobSerial(s.board, jobs[s.done]);
      assert Outputs(t, start) by { SameOutputs(s, t, start); }
    } else if a.Assign? && t != s {
      SameOutputs(s, t, start);
    } else if a.Leave? && t != s {
      SerialSnoc(start, s.log, Done(jobs[s.done]));
      OutputsKept(s, t, start, Done(jobs[s.done]));
      assert jobs[..s.done + 1] == jobs[..s.done] + [jobs[s.done]];
    }
  }

  lemma SameOutputs(s: System, t: System, start: Board)
    requires Outputs(s, start) && t.taken == s.taken && t.sent == s.sent && t.log == s.log
    ensures Outputs(t, start)
  {}

  lemma ThreadExclusive(s: System, a: Action)
    requires Exclusive(s)
    ensures Exclusive(ThreadStep(s, a))
  {
    hide CopyNext, Truthy, LastAlert;
  }

  lemma CopyTracked(s: System, start: Board, jobs: seq<Job>, a: Action)
    requires Exclusive(s) && Tracked(s, start, jobs) && (a.StartCopy? || a.CopyField? || a.EndCopy?)
    ensures Tracked(ThreadStep(s, a), start, jobs)
  {
    hide Serial, DoJob, PerformAll, LastAlert, CopiedSoFar, CopyNext;
    CopiedNothing(BLANK, s.board);
    if a.CopyField? && ThreadStep(s, a) != s {
      CopyOneMore(s.threads[a.id].fields, s.threads[a.id].copy, s.board);
    }
  }

  lemma ReadTracked(s: System, start: Board, jobs: seq<Job>, a: Action)
    requires Exclusive(s) && Tracked(s, start, jobs) && (a.StartRead? || a.ReadLast? || a.EndRead? || a.Publish?)
    ensures Tracked(ThreadStep(s, a), start, jobs)
  {
    hide Serial, DoJob, PerformAll, Truthy, LastAlert, CopiedSoFar;
  }

  lemma StoreTracked(s: System, start: Board, jobs: seq<Job>, a: Action)
    requires Exclusive(s) && Tracked(s, start, jobs) && (a.StartStore? || a.Store? || a.EndStore?)
    ensures Tracked(ThreadStep(s, a), start, jobs)
  {
    hide Serial, DoJob, PerformAll, LastAlert, CopiedSoFar;
    if a.EndStore? && ThreadStep(s, a) != s {
      SerialSnoc(start, s.log, Stored(s.threads[a.id].result));
    }
  }

  lemma ThreadTracked(s: System, start: Board, jobs: seq<Job>, a: Action)
    requires Exclusive(s) && Tracked(s, start, jobs)
    ensures Tracked(ThreadStep(s, a), start, jobs)
  {
    hide Exclusive, Tracked;
    if a.StartCopy? || a.CopyField? || a.EndCopy? {
      CopyTracked(s, start, jobs, a);
    } else if a.StartRead? || a.ReadLast? || a.EndRead? || a.Publish? {
      ReadTracked(s, start, jobs, a);
    } else if a.StartStore? || a.Store? || a.EndStore? {
      StoreTracked(s, start, jobs, a);
    }
  }

  lemma CopiedNothing(copy: Board, from: Board)
    ensures CopiedSoFar(0, copy, from)
  {}

  lemma CopiedAll(copy: Board, from: Board)
    requires CopiedSoFar(FIELDS, copy, from)
    ensures copy == from
  {}

  lemma ThreadOutputs(s: System, start: Board, jobs: seq<Job>, a: Action)
    requires Atomic(s, start, jobs)
    ensures Outputs(ThreadStep(s, a), start) && Progress(ThreadStep(s, a), jobs)
  {
    hide Serial, JobsOf, DoJob, PerformAll, Truthy, LastAlert, CopyNext, Exclusive, Tracked, Outputs;
    var t := ThreadStep(s, a);
    match a
    case EndCopy(id) =>
      EndCopyOutputs(s, start, jobs, id);
    case EndRead(id) =>
      EndReadOutputs(s, start, jobs, id);
    case EndStore(id) =>
      if t != s {
        SerialSnoc(start, s.log, Stored(s.threads[id].result));
        assert JobsOf(s.log) + [] == JobsOf(s.log);
        OutputsKept(s, t, start, Stored(s.threads[id].result));
      }
    case _ =>
      SameOutputs(s, t, start);
  }

  lemma EndCopyOutputs(s: System, start: Board, jobs: seq<Job>, id: nat)
    requires Exclusive(s) && Tracked(s, start, jobs) && Outputs(s, start)
    ensures Outputs(ThreadStep(s, EndCopy(id)), start)
  {
    hide Serial, DoJob, PerformAll, LastAlert, CopiedSoFar;
    LogWhole(s.log);
    if id in s.threads && s.threads[id].Copying? && s.threads[id].fields == FIELDS {
      CopiedAll(s.threads[id].copy, Serial(start, s.log));
    }
  }

  lemma EndReadOutputs(s: System, start: Board, jobs: seq<Job>, id: nat)
    requires Exclusive(s) && Tracked(s, start, jobs) && Outputs(s, start)
    ensures Outputs(ThreadStep(s, EndRead(id)), start)
  {
    hide Serial, DoJob, PerformAll, LastAlert, CopiedSoFar, Truthy;
    LogWhole(s.log);
  }

  lemma {:induction false} AlwaysAtomic(start: Board, jobs: seq<Job>, actions: seq<Action>)
    ensures Atomic(Interleave(Begin(start), jobs, actions), start, jobs)
  {
    hide Act, Atomic;
    if actions == [] {
      BeginAtomic(start, jobs);
    } else {
      var before, a := actions[..|actions| - 1], actions[|actions| - 1];
      AlwaysAtomic(start, jobs, before);
      ActAtomic(Interleave(Begin(start), jobs, before), start, jobs, a);
    }
  }

  lemma BeginAtomic(start: Board, jobs: seq<Job>)
    ensures Atomic(Begin(start), start, jobs)
  {}

  lemma ActAtomic(s: System, start: Board, jobs: seq<Job>, a: Action)
    requires Atomic(s, start, jobs)
    ensures Atomic(Act(s, jobs, a), start, jobs)
  {
    hide ConnectorStep, ThreadStep, Exclusive, Tracked, Outputs, Progress;
    if a.Enter? || a.Assign? || a.Leave? {
      ConnectorAtomic(s, start, jobs, a);
    } else {
      ThreadExclusive(s, a);
      ThreadTracked(s, start, jobs, a);
      ThreadOutputs(s, start, jobs, a);
    }
  }

  // ---- what a reader sees ---------------------------------------------------------------------------------

  /** A job does not look at the upload result: what it makes of the other fields is the same. */
  lemma DispatchIgnoresAws(b: Board, result: Json, kind: string, fields: seq<Field>, env: Env)
    ensures var r := Dispatch(b.(aws := result), kind, fields, env).board;
            r == Dispatch(b, kind, fields, env).board.(aws := r.aws)
  {
    hide Get, ByHost, Last, ChatOf, NoticeOf;
  }

  lemma JobIgnoresAws(b: Board, result: Json, job: Job)
    ensures var r := DoJob(b.(aws := result), job);
            r == DoJob(b, job).(aws := r.aws)
  {
    hide Dispatch, Get;
    if job.Event? && job.event.JObj? {
      match Get(job.event.fields, "type")
      case Some(JStr(kind)) =>
        DispatchIgnoresAws(b.(lastEvent := Some(job.env.now)), result, kind, job.event.fields, job.env);
      case _ =>
    }
  }

  lemma {:induction false} SerialIsJobs(start: Board, log: seq<Section>)
    ensures Serial(start, log) == AfterJobs(start, JobsOf(log)).(aws := Serial(start, log).aws)
  {
    hide DoJob;
    if log != [] {
      var before, last := log[..|log| - 1], log[|log| - 1];
      SerialIsJobs(start, before);
      if last.Done? {
        var whole := AfterJobs(start, JobsOf(before));
        JobIgnoresAws(whole, Serial(start, before).aws, last.job);
        assert JobsOf(log) == JobsOf(before) + [last.job];
        assert JobsOf(log)[..|JobsOf(log)| - 1] == JobsOf(before);
      } else {
        assert JobsOf(before) + [] == JobsOf(before);
      }
    }
  }

  lemma {:induction false} JobsOfPrefix(log: seq<Section>, n: nat)
    requires n <= |log|
    ensures JobsOf(log[..n]) <= JobsOf(log)
  {
    if n < |log| {
      JobsOfPrefix(log[..|log| - 1], n);
      assert log[..|log| - 1][..n] == log[..n];
    } else {
      assert log[..n] == log;
    }
  }

  lemma JobWindows(b: Board, job: Job)
    requires |b.alerts| <= ALERT_WINDOW && |b.chat| <= CHAT_WINDOW
    ensures |DoJob(b, job).alerts| <= ALERT_WINDOW && |DoJob(b, job).chat| <= CHAT_WINDOW
  {
    hide Get, ByHost, ChatOf, NoticeOf;
  }

  lemma {:induction false} SerialWindows(start: Board, log: seq<Section>)
    requires |start.alerts| <= ALERT_WINDOW && |start.chat| <= CHAT_WINDOW
    ensures |Serial(start, log).alerts| <= ALERT_WINDOW && |Serial(start, log).chat| <= CHAT_WINDOW
  {
    hide DoJob;
    if log != [] {
      SerialWindows(start, log[..|log| - 1]);
      if log[|log| - 1].Done? {
        JobWindows(Serial(start, log[..|log| - 1]), log[|log| - 1].job);
      }
    }
  }

  /** How many of the connector's jobs the i-th snapshot shows. */
  ghost function SeenJobs(s: System, i: nat): nat
    requires i < |s.taken| && s.taken[i].at <= |s.log|
  {
    |JobsOf(s.log[..s.taken[i].at])|
  }

  /** Lock atomicity. Under every interleaving, each snapshot is the board after a whole number of
      the connector's jobs, apart from the upload result; later snapshots never show fewer jobs;
      and none shows more than 50 alerts or 80 chat items. */
  lemma SnapshotsAreAtomic(start: Board, jobs: seq<Job>, actions: seq<Action>)
    requires |start.alerts| <= ALERT_WINDOW && |start.chat| <= CHAT_WINDOW
    ensures var s := Interleave(Begin(start), jobs, actions);
            && s.done <= |jobs|
            && (forall i :: 0 <= i < |s.taken| ==>
                  var seen := s.taken[i].board;
                  && s.taken[i].at <= |s.log| && SeenJobs(s, i) <= s.done
                  && seen == AfterJobs(start, jobs[..SeenJobs(s, i)]).(aws := seen.aws)
                  && |seen.alerts| <= 50 && |seen.chat| <= 80)
            && (forall i, j :: 0 <= i < j < |s.taken| ==> SeenJobs(s, i) <= SeenJobs(s, j))
  {
    hide Interleave, Serial, JobsOf, AfterJobs, Exclusive, Tracked;
    var s := Interleave(Begin(start), jobs, actions);
    AlwaysAtomic(start, jobs, actions);
    forall i | 0 <= i < |s.taken|
      ensures var seen := s.taken[i].board;
              && s.taken[i].at <= |s.log| && SeenJobs(s, i) <= s.done
              && seen == AfterJobs(start, jobs[..SeenJobs(s, i)]).(aws := seen.aws)
              && |seen.alerts| <= ALERT_WINDOW && |seen.chat| <= CHAT_WINDOW
    {
      var log := s.log[..s.taken[i].at];
      SerialIsJobs(start, log);
      SerialWindows(start, log);
      JobsOfPrefix(s.log, s.taken[i].at);
      assert JobsOf(log) == jobs[..|JobsOf(log)|];
    }
    forall i, j | 0 <= i < j < |s.taken|
      ensures SeenJobs(s, i) <= SeenJobs(s, j)
    {
      var log := s.log[..s.taken[j].at];
      JobsOfPrefix(log, s.taken[i].at);
      assert log[..s.taken[i].at] == s.log[..s.taken[i].at];
    }
  }

  /** Every alert `upload_latest_alert` hands to the publisher was the newest alert of a board after
      whole sections. */
  lemma UploadsAreLatest(start: Board, jobs: seq<Job>, actions: seq<Action>, i: nat)
    requires i < |Interleave(Begin(start), jobs, actions).sent|
    ensures var s := Interleave(Begin(start), jobs, actions);
            && s.sent[i].at <= |s.log| && JobsOf(s.log[..s.sent[i].at]) <= jobs
            && s.sent[i].alert != JObj([])
    ensures var s := Interleave(Begin(start), jobs, actions);
            var alerts := AfterJobs(start, JobsOf(s.log[..s.sent[i].at])).alerts;
            alerts != [] && alerts[|alerts| - 1] == s.sent[i].alert
  {
    hide Interleave, Serial, JobsOf, AfterJobs, Exclusive, Tracked;
    var s := Interleave(Begin(start), jobs, actions);
    AlwaysAtomic(start, jobs, actions);
    SerialIsJobs(start, s.log[..s.sent[i].at]);
    JobsOfPrefix(s.log, s.sent[i].at);
  }

  /** The lock is needed: with a full window, the board itself holds 51 alerts in the middle of every
      alert event. */
  lemma WindowOverflowsInside(start: Board, fields: seq<Field>, env: Env)
    requires |start.alerts| == ALERT_WINDOW && Get(fields, "type") == Some(JStr("alert"))
    ensures var s := Interleave(Begin(start), [Event(JObj(fields), env)], [Enter, Assign, Assign]);
            |s.board.alerts| == ALERT_WINDOW + 1 && s.owner == ByConnector
  {
    hide Get;
    var jobs := [Event(JObj(fields), env)];
    var s0 := Begin(start);
    var s1 := Act(s0, jobs, Enter);
    var s2 := Act(s1, jobs, Assign);
    assert [Enter][..0] == [] && [Enter, Assign][..1] == [Enter] && [Enter, Assign, Assign][..2] == [Enter, Assign];
    assert Interleave(s0, jobs, [Enter]) == s1;
    assert Interleave(s0, jobs, [Enter, Assign]) == s2;
    assert s1.connector.left[0] == Note(env.now);
    assert s2.connector.left[0].AppendAlert?;
  }
}
