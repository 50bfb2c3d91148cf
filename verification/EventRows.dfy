/** How each booking step changes the rows and counters of a window. */
module EventRows {
  import opened Windows
  import opened Model
  import opened EventTimeline
  import opened EventLedger

  /** A row's time in a scheduler state. */
  function TimeIn(row: Row, s: SchedState): int {
    match s
    case OnCPU => row.sched.onCPU
    case Runnable => row.sched.runqueue
    case _ => row.Spent(Charged(s))
  }

  function TimeOf(win: Window, id: Identity, s: SchedState): int {
    if id in win.stats then TimeIn(win.stats[id], s) else 0
  }

  /** A row's event counter. */
  function MetricIn(row: Row, m: Metric): int {
    match m
    case Events => row.wakeups.events
    case Timeslices => row.sched.timeslices
    case WakeupCount => row.wakeups.wakeups
    case LatencyTotal => row.wakeups.latencyTotal
    case Incomplete => row.wakeups.incomplete
    case LateEvents => 0
  }

  function MetricOf(win: Window, id: Identity, m: Metric): int {
    if id in win.stats then MetricIn(win.stats[id], m) else 0
  }

  function LongestOf(win: Window, id: Identity): int {
    if id in win.stats then win.stats[id].wakeups.latencyMax else 0
  }

  /** A window's own counter, where the report has one. */
  function WindowMetric(win: Window, m: Metric): int {
    var q := win.quality.events;
    match m
    case Events => q.events
    case Incomplete => q.incomplete
    case LateEvents => q.late
    case _ => 0
  }

  predicate Reported(m: Metric) { m.Events? || m.Incomplete? || m.LateEvents? }

  /** The sums a row keeps: all states make up the observed time, on-CPU and queued make up running. */
  predicate Balanced(row: Row) {
    && row.SpentInAll() == row.total == row.sched.observed
    && row.Spent(Running) == row.sched.onCPU + row.sched.runqueue
    && row.Spent(Zombie) == 0
  }

  ghost predicate RowsOk(win: Window, start: int, end: int) {
    forall id :: id in win.stats ==>
      && win.stats[id].id == id && win.stats[id].start == start && win.stats[id].end == end
      && win.stats[id].sched.source == "ebpf_sched_events" && Balanced(win.stats[id])
  }

  lemma AccrueTime(row: Row, s: SchedState, delta: int, x: SchedState)
    ensures TimeIn(Accrue(row, s, delta), x) == TimeIn(row, x) + if x == s then delta else 0
  {
  }

  lemma AccrueBalanced(row: Row, s: SchedState, delta: int)
    requires Balanced(row)
    ensures Balanced(Accrue(row, s, delta))
  {
    var more := row.AddSpent(Charged(s), delta);
    assert forall x :: Accrue(row, s, delta).Spent(x) == more.Spent(x);
  }

  /** A posting reaches its own row and state only. */
  lemma PostTime(g: Grid, w: int, win: Window, t: Track, delta: int, id: Identity, s: SchedState)
    ensures TimeOf(Post(g, w, win, t, delta), id, s) ==
            TimeOf(win, id, s) + if id == t.id && s == t.state then delta else 0
  {
    AccrueTime(RowFor(g, w, win, t), t.state, delta, s);
  }

  lemma RowForOk(g: Grid, w: int, win: Window, t: Track)
    requires RowsOk(win, g.Start(w), g.End(w))
    ensures var row := RowFor(g, w, win, t);
            row.id == t.id && row.start == g.Start(w) && row.end == g.End(w) && row.sched.source == METHOD
            && Balanced(row)
  {
    if t.id !in win.stats {
      var blank := EmptyRow(t.pid, t.id, t.comm, METHOD, g, w);
      assert forall s :: blank.Spent(s) == 0 == blank.(comm := t.comm).Spent(s);
    } else {
      var row := win.stats[t.id];
      assert forall s :: row.(comm := t.comm).Spent(s) == row.Spent(s);
    }
  }

  lemma PostRows(g: Grid, w: int, win: Window, t: Track, delta: int)
    requires RowsOk(win, g.Start(w), g.End(w))
    ensures RowsOk(Post(g, w, win, t, delta), g.Start(w), g.End(w))
  {
    RowForOk(g, w, win, t);
    AccrueBalanced(RowFor(g, w, win, t), t.state, delta);
  }

  /** A row's total is its time in the nine scheduler states. */
  lemma TotalTime(row: Row)
    requires Balanced(row)
    ensures row.total == TimeIn(row, SchedState.Unknown) + TimeIn(row, OnCPU) + TimeIn(row, Runnable)
                         + TimeIn(row, SchedState.Sleeping) + TimeIn(row, SchedState.Uninterruptible)
                         + TimeIn(row, SchedState.Stopped) + TimeIn(row, SchedState.TracingStop)
                         + TimeIn(row, SchedState.Idle) + TimeIn(row, SchedState.Dead)
  {
  }

  lemma PostMetrics(g: Grid, w: int, win: Window, t: Track, delta: int, id: Identity, m: Metric)
    ensures MetricOf(Post(g, w, win, t, delta), id, m) == MetricOf(win, id, m)
    ensures LongestOf(Post(g, w, win, t, delta), id) == LongestOf(win, id)
    ensures WindowMetric(Post(g, w, win, t, delta), m) == WindowMetric(win, m)
  {
  }

  /** The window an applied event is counted in. */
  function Recorded(g: Grid, w: int, win: Window, t: Track, e: Event): Window {
    var q := win.quality.events;
    Window(win.stats[t.id := Tally(RowFor(g, w, win, t), t, e)],
           win.quality.(events := q.(events := q.events + 1,
                                     incomplete := q.incomplete + if Abandons(t, e) then 1 else 0)))
  }

  lemma RecordedTime(g: Grid, w: int, win: Window, t: Track, e: Event, id: Identity, s: SchedState)
    ensures TimeOf(Recorded(g, w, win, t, e), id, s) == TimeOf(win, id, s)
  {
  }

  lemma RecordedRows(g: Grid, w: int, win: Window, t: Track, e: Event)
    requires RowsOk(win, g.Start(w), g.End(w))
    ensures RowsOk(Recorded(g, w, win, t, e), g.Start(w), g.End(w))
  {
    RowForOk(g, w, win, t);
  }

  lemma RecordedMetrics(g: Grid, w: nat, win: Window, t: Track, e: Event, n: nat, id: Identity, m: Metric)
    ensures var x := Counted(n, w, t.id, e.kind.SwitchIn?, Latency(t, e), Abandons(t, e));
            && MetricOf(Recorded(g, w, win, t, e), id, m) ==
               MetricOf(win, id, m) + (if id == t.id then Score(x, m) else 0)
            && (Reported(m) ==> WindowMetric(Recorded(g, w, win, t, e), m) == WindowMetric(win, m) + Score(x, m))
            && LongestOf(Recorded(g, w, win, t, e), id) ==
               (if id == t.id then Max(LongestOf(win, id), Latency(t, e)) else LongestOf(win, id))
  {
  }

  /** Late events and handovers touch a window's quality only. */
  lemma QualityOnly(g: Grid, ws: map<int, Window>, next: nat, at: int, w: int, m: Metric)
    requires g.Valid()
    ensures WindowAt(RecordLate(ws, next), w).stats == WindowAt(ws, w).stats
    ensures WindowAt(RecordRace(g, ws, next, at), w).stats == WindowAt(ws, w).stats
    ensures WindowMetric(WindowAt(RecordRace(g, ws, next, at), w), m) == WindowMetric(WindowAt(ws, w), m)
    ensures WindowMetric(WindowAt(RecordLate(ws, next), w), m) ==
            WindowMetric(WindowAt(ws, w), m) + if w == next then Score(LateIn(next), m) else 0
  {
  }
}
