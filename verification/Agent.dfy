/** The agent: `collect_metrics` over 64-bit counters, and the loop that samples, sends and reconnects. */
module Agent {
  import opened Text
  import opened Decimal
  import opened Records
  import opened Wire

  const TWO64: int := 0x1_0000_0000_0000_0000

  type U64 = x: int | 0 <= x < TWO64

  /** Unsigned 64-bit subtraction. */
  function Minus(a: U64, b: U64): U64 {
    (a - b) % TWO64
  }

  datatype CpuSample = CpuSample(idle: U64, total: U64)

  datatype NetSample = NetSample(rx: U64, tx: U64)

  /** The two lines of `/proc/meminfo`, in kB. */
  datatype Memory = Memory(totalKb: int, availableKb: int)

  /** `statvfs`: blocks, blocks available, and the fragment size. */
  datatype Disk = Disk(blocks: U64, available: U64, fragment: U64) {
    function Total(): U64 { blocks * fragment % TWO64 }
    function Available(): U64 { available * fragment % TWO64 }
    function Used(): U64 { Minus(Total(), Available()) }
  }

  /** Everything one call of `collect_metrics` reads. */
  datatype Reading = Reading(stamp: string, cpu: CpuSample, memory: Memory, disk: Option<Disk>, net: NetSample)

  /** C++ division of signed integers. */
  function Truncated(a: int, b: int): int
    requires b > 0
  {
    if a >= 0 then a / b else -(-a / b)
  }

  // ---- the numbers of one sample ------------------------------------------------------------------

  function CpuPercent(p: CpuSample, c: CpuSample): Double {
    var totalDelta := Minus(c.total, p.total);
    var idleDelta := Minus(c.idle, p.idle);
    if p.total != 0 && totalDelta > 0
    then FromReal(100.0 * Minus(totalDelta, idleDelta) as real / totalDelta as real)
    else ZERO
  }

  /** Both rates depend on the received count of the previous sample. */
  function Kbps(p: NetSample, before: U64, after: U64, elapsed: real): Double {
    if p.rx != 0 && elapsed > 0.0 then FromReal(Minus(after, before) as real / 1024.0 / elapsed) else ZERO
  }

  function Percent(used: int, total: int): Double {
    if total > 0 then FromReal(100.0 * used as real / total as real) else ZERO
  }

  /** The fields the agent carries from one sample to the next. */
  datatype Sampler = Sampler(cpu: CpuSample, net: NetSample, tick: real)

  /** One turn of the inner loop: the clock, what is read, and whether the line went out. */
  datatype Tick = Tick(now: real, reading: Reading, sent: bool)

  function Next(t: Tick): Sampler {
    Sampler(t.reading.cpu, t.reading.net, t.now)
  }

  function MegabytesOf(disk: Option<Disk>): (int, int) {
    match disk
    case None => (0, 0)
    case Some(d) => (d.Used() / 0x10_0000, d.Total() / 0x10_0000)
  }

  /** `collect_metrics` as a value. */
  function Sample(host: string, cpu: CpuSample, net: NetSample, r: Reading, elapsed: real): Metric {
    var usedKb := r.memory.totalKb - r.memory.availableKb;
    Metric(host, r.stamp,
           CpuPercent(cpu, r.cpu),
           Percent(usedKb, r.memory.totalKb),
           if r.disk.None? then ZERO else Percent(r.disk.value.Used(), r.disk.value.Total()),
           Kbps(net, net.rx, r.net.rx, elapsed),
           Kbps(net, net.tx, r.net.tx, elapsed),
           Truncated(usedKb, 1024), Truncated(r.memory.totalKb, 1024),
           MegabytesOf(r.disk).0, MegabytesOf(r.disk).1)
  }

  /** The sampler before tick k of a run. */
  function Before(first: Sampler, ticks: seq<Tick>, k: nat): Sampler
    requires k <= |ticks|
  {
    if k == 0 then first else Next(ticks[k - 1])
  }

  function SampleAt(host: string, p: Sampler, t: Tick): Metric {
    Sample(host, p.cpu, p.net, t.reading, t.now - p.tick)
  }

  /** The metric of every tick, in order. */
  function Samples(host: string, first: Sampler, ticks: seq<Tick>): (metrics: seq<Metric>)
    ensures |metrics| == |ticks|
  {
    seq(|ticks|, k requires 0 <= k < |ticks| => SampleAt(host, Before(first, ticks, k), ticks[k]))
  }

  lemma SamplesAppend(host: string, first: Sampler, a: seq<Tick>, b: seq<Tick>)
    ensures Samples(host, first, a + b) == Samples(host, first, a) + Samples(host, Before(first, a, |a|), b)
  {
    hide Sample;
    forall k | 0 <= k < |a + b|
      ensures Before(first, a + b, k) ==
              if k < |a| then Before(first, a, k) else Before(Before(first, a, |a|), b, k - |a|)
    {
      if 0 < k {
        assert (a + b)[k - 1] == if k - 1 < |a| then a[k - 1] else b[k - 1 - |a|];
      }
    }
  }

  // ---- the whole agent ---------------------------------------------------------------------------------

  /** One turn of the outer loop: the connection made, or none, and the ticks that could follow. */
  datatype Session = Session(socket: Option<int>, ticks: seq<Tick>)

  /** The ticks until a send fails. */
  function UntilLost(ticks: seq<Tick>): seq<Tick> {
    if ticks == [] then [] else if !ticks[0].sent then [ticks[0]] else [ticks[0]] + UntilLost(ticks[1..])
  }

  function Performed(sessions: seq<Session>): seq<Tick> {
    if sessions == [] then [] else
      Performed(sessions[..|sessions| - 1]) +
      if sessions[|sessions| - 1].socket.None? then [] else UntilLost(sessions[|sessions| - 1].ticks)
  }

  /** The lines that reached the wire. */
  function SentLines(metrics: seq<Metric>, ticks: seq<Tick>): seq<string>
    requires |metrics| == |ticks|
  {
    if ticks == [] then [] else
      SentLines(metrics[..|ticks| - 1], ticks[..|ticks| - 1]) +
      if ticks[|ticks| - 1].sent then [MetricsPayload(metrics[|ticks| - 1])] else []
  }

  function Sockets(sessions: seq<Session>): seq<int> {
    if sessions == [] then [] else
      Sockets(sessions[..|sessions| - 1]) +
      if sessions[|sessions| - 1].socket.None? then [] else [sessions[|sessions| - 1].socket.value]
  }

  class MetricsAgent {
    const host: string
    var cpu: CpuSample
    var net: NetSample
    var tick: real
    // the lines that went out and the sockets closed so far
    var lines: seq<string>
    var closed: seq<int>

    constructor (host: string, cpu: CpuSample, net: NetSample, now: real)
      ensures this.host == host && Carried() == Sampler(cpu, net, now) && lines == [] && closed == []
    {
      this.host, this.cpu, this.net, this.tick := host, cpu, net, now;
      lines, closed := [], [];
    }

    function Carried(): Sampler
      reads this
    {
      Sampler(cpu, net, tick)
    }

    /** `collect_metrics`, the two carried samples updated in place. */
    method Collect(r: Reading, elapsed: real) returns (m: Metric)
      modifies this`cpu, this`net
      ensures m == Sample(host, old(cpu), old(net), r, elapsed)
      ensures cpu == r.cpu && net == r.net
    {
      hide Minus, Truncated, FromReal;
      m := Metric(host, r.stamp, ZERO, ZERO, ZERO, ZERO, ZERO, 0, 0, 0, 0);
      var totalDelta := Minus(r.cpu.total, cpu.total);
      var idleDelta := Minus(r.cpu.idle, cpu.idle);
      if cpu.total != 0 && totalDelta > 0 {
        m := m.(cpuPercent := FromReal(100.0 * Minus(totalDelta, idleDelta) as real / totalDelta as real));
      }
      cpu := r.cpu;
      var usedKb := r.memory.totalKb - r.memory.availableKb;
      m := m.(memoryTotalMb := Truncated(r.memory.totalKb, 1024), memoryUsedMb := Truncated(usedKb, 1024));
      if r.memory.totalKb > 0 {
        m := m.(memoryPercent := FromReal(100.0 * usedKb as real / r.memory.totalKb as real));
      }
      if r.disk.Some? {
        var total, used := r.disk.value.Total(), r.disk.value.Used();
        m := m.(diskTotalMb := total / 0x10_0000, diskUsedMb := used / 0x10_0000);
        if total > 0 {
          m := m.(diskPercent := FromReal(100.0 * used as real / total as real));
        }
      }
      if net.rx != 0 && elapsed > 0.0 {
        m := m.(networkRxKbps := FromReal(Minus(r.net.rx, net.rx) as real / 1024.0 / elapsed),
                networkTxKbps := FromReal(Minus(r.net.tx, net.tx) as real / 1024.0 / elapsed));
      }
      net := r.net;
    }

    /** The inner loop of `main`: sample and send until a send fails. */
    method Stream(ticks: seq<Tick>) returns (metrics: seq<Metric>, alive: bool)
      modifies this`cpu, this`net, this`tick, this`lines
      ensures var done := UntilLost(ticks);
              && metrics == Samples(host, old(Carried()), done)
              && Carried() == Before(old(Carried()), done, |done|)
              && lines == old(lines) + SentLines(metrics, done)
      ensures alive <==> forall i :: 0 <= i < |ticks| ==> ticks[i].sent
    {
      hide Sample, Samples, SentLines, UntilLost, MetricsPayload;
      ghost var first := Carried();
      ghost var done: seq<Tick> := [];
      ghost var before := lines;
      metrics := [];
      SentNothing();
      assert ticks[0..] == ticks;
      for k := 0 to |ticks|
        invariant |done| == |metrics| && done + UntilLost(ticks[k..]) == UntilLost(ticks)
        invariant metrics == Samples(host, first, done) && Carried() == Before(first, done, |done|)
        invariant lines == before + SentLines(metrics, done)
        invariant forall i :: 0 <= i < k ==> ticks[i].sent
      {
        var t := ticks[k];
        UntilLostStep(ticks, k);
        assert done + ([t] + UntilLost(ticks[k + 1..])) == done + [t] + UntilLost(ticks[k + 1..]);
        var elapsed := t.now - tick;
        tick := t.now;
        SamplesSnoc(host, first, done, t);
        var m := Collect(t.reading, elapsed);
        SentSnoc(metrics, done, m, t);
        metrics := metrics + [m];
        done := done + [t];
        if !t.sent {
          assert [t] + [] == [t] && lines + [] == lines && !ticks[k].sent;
          return metrics, false;
        }
        lines := lines + [MetricsPayload(m)];
      }
      UntilLostEnd(ticks);
      assert done + [] == done;
      return metrics, true;
    }

    /** The outer loop of `main`. The metrics are those of one uninterrupted run over all the ticks,
        whatever the reconnects, and every socket is closed exactly once. */
    method Run(sessions: seq<Session>) returns (metrics: seq<Metric>)
      modifies this
      ensures metrics == Samples(host, old(Carried()), Performed(sessions))
      ensures lines == old(lines) + SentLines(metrics, Performed(sessions))
      ensures closed == old(closed) + Sockets(sessions)
    {
      hide Sample, Samples, MetricsPayload, UntilLost, SentLines, Performed, Sockets;
      ghost var first := Carried();
      metrics := [];
      SentNothing();
      NoSessions();
      for k := 0 to |sessions|
        invariant var done := Performed(sessions[..k]);
                  && metrics == Samples(host, first, done) && Carried() == Before(first, done, |done|)
                  && lines == old(lines) + SentLines(metrics, done)
        invariant closed == old(closed) + Sockets(sessions[..k])
      {
        SessionStep(sessions, k);
        ghost var done := Performed(sessions[..k]);
        if sessions[k].socket.None? {
          continue;
        }
        var socket := sessions[k].socket;
        var more, alive := Stream(sessions[k].ticks);
        ghost var next := UntilLost(sessions[k].ticks);
        if !alive {
          closed := closed + [socket.value];
          socket := None;
        }
        SamplesAppend(host, first, done, next);
        SentAppend(metrics, done, more, next);
        metrics := metrics + more;
        if socket.Some? {
          closed := closed + [socket.value];
        }
      }
      assert sessions[..|sessions|] == sessions;
    }
  }

  lemma NoSessions()
    ensures Performed([]) == [] && Sockets([]) == []
  {}

  lemma SessionStep(sessions: seq<Session>, k: nat)
    requires k < |sessions|
    ensures var done, more := Performed(sessions[..k]), Performed(sessions[..k + 1]);
            var closed, after := Sockets(sessions[..k]), Sockets(sessions[..k + 1]);
            if sessions[k].socket.None? then more == done && after == closed
            else more == done + UntilLost(sessions[k].ticks) && after == closed + [sessions[k].socket.value]
  {
    hide UntilLost;
    assert sessions[..k + 1][..k] == sessions[..k];
    assert Performed(sessions[..k]) + [] == Performed(sessions[..k]);
  }

  lemma SamplesSnoc(host: string, first: Sampler, done: seq<Tick>, t: Tick)
    ensures Samples(host, first, done + [t]) ==
            Samples(host, first, done) + [SampleAt(host, Before(first, done, |done|), t)]
  {
    hide SampleAt;
    SamplesAppend(host, first, done, [t]);
    assert [SampleAt(host, Before(first, done, |done|), t)] == Samples(host, Before(first, done, |done|), [t]);
  }

  lemma UntilLostStep(ticks: seq<Tick>, k: nat)
    requires k < |ticks|
    ensures UntilLost(ticks[k..]) == [ticks[k]] + if ticks[k].sent then UntilLost(ticks[k + 1..]) else []
  {
    assert ticks[k..][1..] == ticks[k + 1..] && ticks[k..][0] == ticks[k];
  }

  lemma UntilLostEnd(ticks: seq<Tick>)
    ensures UntilLost(ticks[|ticks|..]) == []
  {}

  lemma SentNothing()
    ensures SentLines([], []) == []
    ensures forall host, first :: Samples(host, first, []) == []
  {}

  lemma SentSnoc(metrics: seq<Metric>, ticks: seq<Tick>, m: Metric, t: Tick)
    requires |metrics| == |ticks|
    ensures SentLines(metrics + [m], ticks + [t]) ==
            SentLines(metrics, ticks) + if t.sent then [MetricsPayload(m)] else []
  {
    hide MetricsPayload;
    assert (metrics + [m])[..|ticks|] == metrics && (ticks + [t])[..|ticks|] == ticks;
  }

  lemma {:induction false} SentAppend(metrics: seq<Metric>, ticks: seq<Tick>, more: seq<Metric>, next: seq<Tick>)
    requires |metrics| == |ticks| && |more| == |next|
    ensures SentLines(metrics + more, ticks + next) == SentLines(metrics, ticks) + SentLines(more, next)
  {
    hide MetricsPayload, SentLines;
    if next == [] {
      assert metrics + more == metrics && ticks + next == ticks;
      SentNothing();
    } else {
      var n := |next| - 1;
      SentAppend(metrics, ticks, more[..n], next[..n]);
      SentSnoc(metrics + more[..n], ticks + next[..n], more[n], next[n]);
      SentSnoc(more[..n], next[..n], more[n], next[n]);
      assert more == more[..n] + [more[n]] && next == next[..n] + [next[n]];
      assert metrics + more == metrics + more[..n] + [more[n]] && ticks + next == ticks + next[..n] + [next[n]];
    }
  }

  // ---- percentages -----------------------------------------------------------------------------------------

  predicate InPercent(d: Double) {
    0.0 <= d.Value() <= 100.0
  }

  lemma DivideRange(x: real, y: real)
    requires y > 0.0
    ensures (0.0 <= 100.0 * x / y <==> 0.0 <= x) && (100.0 * x / y <= 100.0 <==> x <= y)
  {
    var q := x / y;
    assert x == q * y;
    assert 100.0 * x / y == 100.0 * q;
    assert 0.0 <= q <==> 0.0 <= q * y;
    assert q <= 1.0 <==> q * y <= y;
  }

  /** A reported memory or disk share is a percentage exactly when what is used is part of the whole. */
  lemma PercentRange(used: int, total: int)
    ensures InPercent(Percent(used, total)) <==> (total > 0 ==> 0 <= used <= total)
  {
    if total > 0 {
      DivideRange(used as real, total as real);
    }
  }

  /** The processor share is a percentage exactly when, whenever one is computed, the idle counter
      moved no further than the total; otherwise the subtraction wraps and the figure is beyond 100. */
  lemma CpuPercentRange(p: CpuSample, c: CpuSample)
    ensures InPercent(CpuPercent(p, c)) <==>
            (p.total != 0 && c.total != p.total ==> Minus(c.idle, p.idle) <= Minus(c.total, p.total))
  {
    var total, idle := Minus(c.total, p.total), Minus(c.idle, p.idle);
    MinusZero(c.total, p.total);
    if p.total != 0 && total > 0 {
      MinusCases(total, idle);
      DivideRange(Minus(total, idle) as real, total as real);
    }
  }

  lemma MinusCases(a: U64, b: U64)
    ensures Minus(a, b) == if b <= a then a - b else a - b + TWO64
  {}

  lemma MinusZero(a: U64, b: U64)
    ensures Minus(a, b) == 0 <==> a == b
  {
    MinusCases(a, b);
  }

  // ---- conservation -------------------------------------------------------------------------------------------

  /** The machine's counters without any width, and the time. */
  datatype Counters = Counters(total: nat, idle: nat, rx: nat, tx: nat, time: real)

  /** The low 64 bits of a counter. */
  function Low(x: nat): U64 {
    x % TWO64
  }

  /** What the kernel shows of them. */
  function Shown(c: Counters): Sampler {
    Sampler(CpuSample(Low(c.idle), Low(c.total)), NetSample(Low(c.rx), Low(c.tx)), c.time)
  }

  /** Between two samples no counter falls, none grows by 2^64 or more, idle time is part of the total,
      and the clock does not go back. */
  ghost predicate Grows(a: Counters, b: Counters) {
    && 0 <= b.idle - a.idle <= b.total - a.total < TWO64
    && 0 <= b.rx - a.rx < TWO64 && 0 <= b.tx - a.tx < TWO64
    && a.time <= b.time
  }

  /** `truth[0]` is the machine at start-up and `truth[k + 1]` at tick k. */
  ghost predicate Follows(truth: seq<Counters>, first: Sampler, ticks: seq<Tick>) {
    && |truth| == |ticks| + 1 && first == Shown(truth[0])
    && (forall k :: 0 <= k < |ticks| ==> Next(ticks[k]) == Shown(truth[k + 1]))
    && (forall k :: 0 <= k < |ticks| ==> Grows(truth[k], truth[k + 1]))
  }

  /** Modular subtraction gives the true growth, across a wrap of the counter too. */
  lemma TrueDelta(a: nat, b: nat)
    requires 0 <= b - a < TWO64
    ensures Minus(Low(b), Low(a)) == b - a
  {
    var qa, qb, ra, rb := a / TWO64, b / TWO64, a % TWO64, b % TWO64;
    assert a == qa * TWO64 + ra && b == qb * TWO64 + rb;
    MinusCases(rb, ra);
    if ra <= rb {
      assert b - a == (qb - qa) * TWO64 + (rb - ra);
      MultipleIsZero(qb - qa, rb - ra);
    } else {
      assert b - a == (qb - qa - 1) * TWO64 + (rb - ra + TWO64);
      MultipleIsZero(qb - qa - 1, rb - ra + TWO64);
    }
  }

  lemma MultipleIsZero(q: int, r: int)
    requires 0 <= r < TWO64 && 0 <= q * TWO64 + r < TWO64
    ensures q == 0
  {}

  ghost function Busy(c: Counters): int {
    c.total - c.idle
  }

  /** Each percentage times the ticks it covers. */
  ghost function CpuWork(metrics: seq<Metric>, truth: seq<Counters>): real
    requires |truth| == |metrics| + 1
  {
    if metrics == [] then 0.0 else
      var n := |metrics| - 1;
      CpuWork(metrics[..n], truth[..n + 1]) + metrics[n].cpuPercent.Value() * (truth[n + 1].total - truth[n].total) as real
  }

  /** Busy growth after samples that show a total of zero, which yield no percentage. */
  ghost function BusyMissed(truth: seq<Counters>): int {
    if |truth| < 2 then 0 else
      var n := |truth| - 2;
      BusyMissed(truth[..n + 1]) + if Low(truth[n].total) == 0 then Busy(truth[n + 1]) - Busy(truth[n]) else 0
  }

  lemma CpuStep(a: Counters, b: Counters)
    requires Grows(a, b)
    ensures CpuPercent(Shown(a).cpu, Shown(b).cpu).Value() * (b.total - a.total) as real ==
            if Low(a.total) == 0 then 0.0 else 100.0 * (Busy(b) - Busy(a)) as real
  {
    ShownCpu(a);
    ShownCpu(b);
    hide CpuPercent, Minus, Shown, Low;
    TrueDelta(a.total, b.total);
    TrueDelta(a.idle, b.idle);
    assert Busy(b) - Busy(a) == (b.total - a.total) - (b.idle - a.idle);
    hide Busy;
    CpuShare(Shown(a).cpu, Shown(b).cpu, b.total - a.total, b.idle - a.idle);
  }

  lemma ShownCpu(c: Counters)
    ensures Shown(c).cpu == CpuSample(Low(c.idle), Low(c.total))
  {}

  lemma CpuShare(p: CpuSample, c: CpuSample, total: U64, idle: U64)
    requires Minus(c.total, p.total) == total && Minus(c.idle, p.idle) == idle && idle <= total
    ensures CpuPercent(p, c).Value() * total as real == if p.total == 0 then 0.0 else 100.0 * (total - idle) as real
  {
    MinusCases(total, idle);
    hide Minus;
    var share := CpuPercent(p, c).Value();
    if p.total != 0 && total > 0 {
      assert share == 100.0 * (total - idle) as real / total as real;
      MulDiv(100.0 * (total - idle) as real, total as real);
    } else {
      assert share == 0.0;
    }
  }

  lemma MulDiv(x: real, y: real)
    requires y != 0.0
    ensures x / y * y == x
  {}

  lemma FollowsInit(truth: seq<Counters>, first: Sampler, ticks: seq<Tick>)
    requires Follows(truth, first, ticks) && ticks != []
    ensures var n := |ticks| - 1;
            Follows(truth[..n + 1], first, ticks[..n]) && Before(first, ticks, n) == Shown(truth[n])
  {}

  lemma SamplesInit(host: string, first: Sampler, ticks: seq<Tick>)
    requires ticks != []
    ensures var n := |ticks| - 1;
            Samples(host, first, ticks) == Samples(host, first, ticks[..n]) + [SampleAt(host, Before(first, ticks, n), ticks[n])]
  {
    hide SampleAt;
    var n := |ticks| - 1;
    SamplesSnoc(host, first, ticks[..n], ticks[n]);
    assert ticks == ticks[..n] + [ticks[n]];
  }

  /** Processor time is conserved over a whole run, reconnects included: the percentages, weighted by
      the ticks they cover, add up to 100 times the busy growth, less what fell after a sample showing
      zero; and each of them is a percentage. */
  lemma {:induction false} CpuConserved(host: string, first: Sampler, ticks: seq<Tick>, truth: seq<Counters>)
    requires Follows(truth, first, ticks)
    ensures var metrics := Samples(host, first, ticks);
            && CpuWork(metrics, truth) + 100.0 * BusyMissed(truth) as real
                 == 100.0 * (Busy(truth[|ticks|]) - Busy(truth[0])) as real
            && (forall k :: 0 <= k < |metrics| ==> InPercent(metrics[k].cpuPercent))
  {
    hide CpuPercent, Kbps, Percent, Shown, Grows, Samples, Busy, InPercent, CpuWork, BusyMissed, Low;
    WorkNone(truth[..1]);
    var metrics := Samples(host, first, ticks);
    if ticks != [] {
      var n := |ticks| - 1;
      FollowsInit(truth, first, ticks);
      SamplesInit(host, first, ticks);
      CpuConserved(host, first, ticks[..n], truth[..n + 1]);
      assert metrics[..n] == Samples(host, first, ticks[..n]);
      assert metrics[n].cpuPercent == CpuPercent(Shown(truth[n]).cpu, Shown(truth[n + 1]).cpu);
      CpuStep(truth[n], truth[n + 1]);
      CpuStepRange(truth[n], truth[n + 1]);
      WorkStep(metrics, truth, n);
      MissedStep(truth, n);
      assert truth[..n + 1][n] == truth[n] && truth[..n + 1][0] == truth[0];
    } else {
      assert truth[..1] == truth;
    }
  }

  lemma WorkNone(truth: seq<Counters>)
    requires |truth| == 1
    ensures CpuWork([], truth) == 0.0 && BusyMissed(truth) == 0
  {}

  lemma WorkStep(metrics: seq<Metric>, truth: seq<Counters>, n: nat)
    requires |metrics| == n + 1 && |truth| == n + 2
    ensures CpuWork(metrics, truth) == CpuWork(metrics[..n], truth[..n + 1])
              + metrics[n].cpuPercent.Value() * (truth[n + 1].total - truth[n].total) as real
  {}

  lemma MissedStep(truth: seq<Counters>, n: nat)
    requires |truth| == n + 2
    ensures BusyMissed(truth) == BusyMissed(truth[..n + 1])
              + if Low(truth[n].total) == 0 then Busy(truth[n + 1]) - Busy(truth[n]) else 0
  {
    hide Busy, Low;
  }

  lemma CpuStepRange(a: Counters, b: Counters)
    requires Grows(a, b)
    ensures InPercent(CpuPercent(Shown(a).cpu, Shown(b).cpu))
  {
    TrueDelta(a.total, b.total);
    TrueDelta(a.idle, b.idle);
    CpuPercentRange(Shown(a).cpu, Shown(b).cpu);
  }

  /** One of the two byte counters. */
  ghost function Bytes(c: Counters, sending: bool): nat {
    if sending then c.tx else c.rx
  }

  ghost function RateOf(m: Metric, sending: bool): Double {
    if sending then m.networkTxKbps else m.networkRxKbps
  }

  /** Each rate turned back into bytes over the time it covers. */
  ghost function BytesReported(metrics: seq<Metric>, truth: seq<Counters>, sending: bool): real
    requires |truth| == |metrics| + 1
  {
    if metrics == [] then 0.0 else
      var n := |metrics| - 1;
      BytesReported(metrics[..n], truth[..n + 1], sending) +
      RateOf(metrics[n], sending).Value() * (truth[n + 1].time - truth[n].time) * 1024.0
  }

  /** Bytes in intervals that yield no rate: after a sample showing zero received bytes, or of no length. */
  ghost function BytesMissed(truth: seq<Counters>, sending: bool): int {
    if |truth| < 2 then 0 else
      var n := |truth| - 2;
      BytesMissed(truth[..n + 1], sending) +
      if Low(truth[n].rx) == 0 || truth[n + 1].time == truth[n].time
      then Bytes(truth[n + 1], sending) - Bytes(truth[n], sending) else 0
  }

  lemma RateStep(a: Counters, b: Counters, sending: bool)
    requires Grows(a, b)
    ensures Kbps(Shown(a).net, Low(Bytes(a, sending)), Low(Bytes(b, sending)), b.time - a.time).Value()
              * (b.time - a.time) * 1024.0 ==
            if Low(a.rx) == 0 || b.time == a.time then 0.0 else (Bytes(b, sending) - Bytes(a, sending)) as real
  {
    hide Minus, Low, Kbps, Bytes;
    BytesGrow(a, b, sending);
    TrueDelta(Bytes(a, sending), Bytes(b, sending));
    NetRate(Shown(a).net, Low(Bytes(a, sending)), Low(Bytes(b, sending)), b.time - a.time,
            Bytes(b, sending) - Bytes(a, sending));
  }

  lemma BytesGrow(a: Counters, b: Counters, sending: bool)
    requires Grows(a, b)
    ensures 0 <= Bytes(b, sending) - Bytes(a, sending) < TWO64
  {}

  lemma NetRate(p: NetSample, before: U64, after: U64, elapsed: real, delta: int)
    requires Minus(after, before) == delta && elapsed >= 0.0
    ensures Kbps(p, before, after, elapsed).Value() * elapsed * 1024.0 ==
            if p.rx == 0 || elapsed == 0.0 then 0.0 else delta as real
  {
    hide Minus;
    if p.rx != 0 && elapsed > 0.0 {
      MulDiv(delta as real / 1024.0, elapsed);
    }
  }

  lemma SampleRate(host: string, a: Counters, b: Counters, t: Tick, sending: bool)
    requires Next(t) == Shown(b)
    ensures RateOf(SampleAt(host, Shown(a), t), sending) ==
            Kbps(Shown(a).net, Low(Bytes(a, sending)), Low(Bytes(b, sending)), b.time - a.time)
  {
    hide CpuPercent, Kbps, Percent;
  }

  /** Bytes are conserved in both directions: rates times elapsed times 1024 add up to the growth of the
      counter, less the intervals without a rate. */
  lemma {:induction false} BytesConserved(host: string, first: Sampler, ticks: seq<Tick>, truth: seq<Counters>, sending: bool)
    requires Follows(truth, first, ticks)
    ensures BytesReported(Samples(host, first, ticks), truth, sending) + BytesMissed(truth, sending) as real
              == (Bytes(truth[|ticks|], sending) - Bytes(truth[0], sending)) as real
  {
    hide Kbps, Grows, Samples, SampleAt, Shown, Bytes, RateOf, Low;
    var metrics := Samples(host, first, ticks);
    if ticks != [] {
      var n := |ticks| - 1;
      FollowsInit(truth, first, ticks);
      SamplesInit(host, first, ticks);
      BytesConserved(host, first, ticks[..n], truth[..n + 1], sending);
      assert metrics[..n] == Samples(host, first, ticks[..n]);
      SampleRate(host, truth[n], truth[n + 1], ticks[n], sending);
      RateStep(truth[n], truth[n + 1], sending);
      assert truth[..n + 1][n] == truth[n];
    }
  }

  // ---- memory and disk ---------------------------------------------------------------------------------------

  /** x is the number of whole units in an amount. */
  ghost predicate WholeUnits(x: int, amount: int, size: int) {
    size * x <= amount < size * (x + 1)
  }

  /** The memory fields tell total and used memory: the share, and whole megabytes, cut towards zero. */
  ghost predicate MemoryTold(m: Metric, memory: Memory) {
    var used := memory.totalKb - memory.availableKb;
    && (memory.totalKb > 0 ==> m.memoryPercent.Value() * memory.totalKb as real == 100.0 * used as real)
    && (memory.totalKb <= 0 ==> m.memoryPercent == ZERO)
    && (memory.totalKb >= 0 ==> WholeUnits(m.memoryTotalMb, memory.totalKb, 1024))
    && (used >= 0 ==> WholeUnits(m.memoryUsedMb, used, 1024))
    && (used < 0 ==> WholeUnits(-m.memoryUsedMb, -used, 1024))
  }

  /** The disk fields tell total and used bytes, for a disk whose size fits 64 bits. */
  ghost predicate DiskTold(m: Metric, d: Disk) {
    var total, free := d.blocks * d.fragment, d.available * d.fragment;
    total < TWO64 && d.available <= d.blocks ==>
      && (total > 0 ==> m.diskPercent.Value() * total as real == 100.0 * (total - free) as real)
      && WholeUnits(m.diskTotalMb, total, 1048576) && WholeUnits(m.diskUsedMb, total - free, 1048576)
  }

  lemma PercentTold(used: int, total: int)
    requires total > 0
    ensures Percent(used, total).Value() * total as real == 100.0 * used as real
  {
    MulDiv(100.0 * used as real, total as real);
  }

  lemma KilobytesTold(kb: int)
    ensures kb >= 0 ==> WholeUnits(Truncated(kb, 1024), kb, 1024)
    ensures kb < 0 ==> WholeUnits(-Truncated(kb, 1024), -kb, 1024)
  {}

  lemma MemorySampled(host: string, cpu: CpuSample, net: NetSample, r: Reading, elapsed: real)
    ensures MemoryTold(Sample(host, cpu, net, r, elapsed), r.memory)
  {
    hide WholeUnits, CpuPercent, Kbps, Truncated;
    var used, total := r.memory.totalKb - r.memory.availableKb, r.memory.totalKb;
    KilobytesTold(used);
    KilobytesTold(total);
    if total > 0 {
      PercentTold(used, total);
    }
  }

  lemma SmallDisk(d: Disk)
    requires d.blocks * d.fragment < TWO64 && d.available <= d.blocks
    ensures d.Total() == d.blocks * d.fragment && d.Used() == d.blocks * d.fragment - d.available * d.fragment
    ensures 0 <= d.Used() <= d.Total()
  {
    FewerBlocks(d.available, d.blocks, d.fragment);
    SmallProducts(d, d.blocks * d.fragment, d.available * d.fragment);
  }

  lemma SmallProducts(d: Disk, total: nat, free: nat)
    requires free <= total < TWO64 && d.blocks * d.fragment == total && d.available * d.fragment == free
    ensures d.Total() == total && d.Used() == total - free
  {
    MinusCases(total, free);
    hide Minus;
  }

  lemma FewerBlocks(a: nat, b: nat, size: nat)
    requires a <= b
    ensures 0 <= a * size <= b * size
  {
    assert b * size == a * size + (b - a) * size;
  }

  lemma MegabytesTold(bytes: nat)
    ensures WholeUnits(bytes / 0x10_0000, bytes, 1048576)
  {}

  lemma DiskSampled(host: string, cpu: CpuSample, net: NetSample, r: Reading, elapsed: real)
    requires r.disk.Some?
    ensures DiskTold(Sample(host, cpu, net, r, elapsed), r.disk.value)
  {
    hide WholeUnits, CpuPercent, Kbps, Truncated, Percent;
    var d := r.disk.value;
    var m := Sample(host, cpu, net, r, elapsed);
    assert m.diskPercent == Percent(d.Used(), d.Total());
    assert m.diskUsedMb == d.Used() / 0x10_0000 && m.diskTotalMb == d.Total() / 0x10_0000;
    DiskNumbers(m, d);
  }

  lemma DiskNumbers(m: Metric, d: Disk)
    requires m.diskPercent == Percent(d.Used(), d.Total())
    requires m.diskUsedMb == d.Used() / 0x10_0000 && m.diskTotalMb == d.Total() / 0x10_0000
    ensures DiskTold(m, d)
  {
    hide WholeUnits, Percent;
    var total, free := d.blocks * d.fragment, d.available * d.fragment;
    if total < TWO64 && d.available <= d.blocks {
      SmallDisk(d);
      MegabytesTold(total);
      MegabytesTold(total - free);
      if total > 0 {
        PercentTold(total - free, total);
      }
    }
  }

  /** Every metric of a run tells the reading of its tick: host, time, memory and disk. */
  lemma SamplesTell(host: string, first: Sampler, ticks: seq<Tick>, k: nat)
    requires k < |ticks|
    ensures var m, r := Samples(host, first, ticks)[k], ticks[k].reading;
            && m.host == host && m.timestamp == r.stamp && MemoryTold(m, r.memory)
            && (r.disk.Some? ==> DiskTold(m, r.disk.value))
            && (r.disk.None? ==> m.diskPercent == ZERO && m.diskUsedMb == 0 && m.diskTotalMb == 0)
  {
    hide MemoryTold, DiskTold, CpuPercent, Kbps, Percent, Truncated;
    var p, t := Before(first, ticks, k), ticks[k];
    MemorySampled(host, p.cpu, p.net, t.reading, t.now - p.tick);
    if t.reading.disk.Some? {
      DiskSampled(host, p.cpu, p.net, t.reading, t.now - p.tick);
    }
  }

  // ---- what a session sends --------------------------------------------------------------------------------------

  /** The ticks of a session are performed up to and including the first whose send fails, and the lines that go
      out are the payloads of those before it, in order. */
  lemma {:induction false} SessionSends(ticks: seq<Tick>, metrics: seq<Metric>) returns (p: nat)
    requires |metrics| == |UntilLost(ticks)|
    ensures p <= |ticks| && (forall i :: 0 <= i < p ==> ticks[i].sent) && (p < |ticks| ==> !ticks[p].sent)
    ensures UntilLost(ticks) == if p < |ticks| then ticks[..p + 1] else ticks
    ensures SentLines(metrics, UntilLost(ticks)) == seq(p, i requires 0 <= i < p => MetricsPayload(metrics[i]))
  {
    hide UntilLost, SentLines, MetricsPayload;
    p := FirstLost(ticks);
    var done := UntilLost(ticks);
    SentPrefix(metrics[..p], done[..p]);
    if p < |ticks| {
      SentSnoc(metrics[..p], done[..p], metrics[p], done[p]);
      assert SentLines(metrics[..p], done[..p]) + [] == SentLines(metrics[..p], done[..p]);
      assert metrics == metrics[..p] + [metrics[p]] && done == done[..p] + [done[p]];
    } else {
      assert metrics[..p] == metrics && done[..p] == done;
    }
  }

  lemma {:induction false} FirstLost(ticks: seq<Tick>) returns (p: nat)
    ensures p <= |ticks| && (forall i :: 0 <= i < p ==> ticks[i].sent) && (p < |ticks| ==> !ticks[p].sent)
    ensures UntilLost(ticks) == if p < |ticks| then ticks[..p + 1] else ticks
  {
    if ticks == [] || !ticks[0].sent {
      p := 0;
    } else {
      var q := FirstLost(ticks[1..]);
      p := q + 1;
      assert ticks == [ticks[0]] + ticks[1..];
      if q < |ticks| - 1 {
        assert ticks[..p + 1] == [ticks[0]] + ticks[1..][..q + 1];
      }
    }
  }

  lemma {:induction false} SentPrefix(metrics: seq<Metric>, ticks: seq<Tick>)
    requires |metrics| == |ticks| && forall i :: 0 <= i < |ticks| ==> ticks[i].sent
    ensures SentLines(metrics, ticks) == seq(|ticks|, i requires 0 <= i < |ticks| => MetricsPayload(metrics[i]))
  {
    hide MetricsPayload;
    if ticks != [] {
      SentPrefix(metrics[..|ticks| - 1], ticks[..|ticks| - 1]);
    }
  }
}
