/** What `Accumulator` computes, as functions on its state (internal/collector/accumulator.go). */
module SampleTimeline {
  import opened Windows
  import opened Machine
  import opened Proportion
  import opened Model
  import opened RowOrder
  import opened Snapshots

  const METHOD: string := "procfs_midpoint"
  const SCHEDSTAT: string := "proc_schedstat"

  datatype SchedDelta = SchedDelta(onCPU: uint64, runqueue: uint64, timeslices: uint64)

  datatype CounterDelta = CounterDelta(available: bool, count: uint64, total: uint64)

  datatype DelayDelta = DelayDelta(version: nat, enabled: bool, enabledKnown: bool, resets: nat,
                                   deltas: PerResource<CounterDelta>) {
    predicate Comparable() {
      || deltas.cpu.available || deltas.blockIO.available || deltas.swapIn.available || deltas.reclaim.available
      || deltas.thrashing.available || deltas.compaction.available || deltas.writeProtectCopy.available
      || deltas.irq.available
    }
  }

  /** The closures handed to `forEachWindow`; `start` and `end` bound the sample gap. */
  datatype What =
    | Counters(sched: SchedDelta, start: int, end: int)
    | SchedReset
    | DelayShares(delay: DelayDelta, start: int, end: int)
    | Gap(gap: int)
    | Segment(state: ThreadState)
    | Change(start: int, mid: int, end: int)

  /** One call of `forEachWindow` on behalf of a sample's thread. */
  datatype Visit = Visit(sample: Sample, lo: int, hi: int, what: What)

  datatype Sampler = Sampler(grid: Grid, fixedOrigin: bool, initialized: bool,
                             previous: map<Identity, Sample>, windows: map<int, Window>, nextWindow: nat) {
    ghost predicate Valid() {
      grid.Valid() && forall id :: id in previous ==> previous[id].id == id
    }
  }

  /** Nanoseconds that two spans share. */
  function Common(a: int, b: int, c: int, d: int): int { Max(0, Min(b, d) - Max(a, c)) }

  function Midpoint(start: int, end: int): (m: int)
    ensures start <= end ==> 0 <= (end - m) - (m - start) <= 1
  {
    start + (end - start) / 2
  }

  // ---------------------------------------------------------------- rows

  function AddDelay(share: DelayShare, d: CounterDelta, start: int, end: int, lo: int, hi: int): DelayShare
    requires lo <= hi
  {
    if !d.available then share
    else DelayShare(true, share.count + Piece(d.count, start, end, lo, hi),
                    share.total + NanosecondsDuration(Piece(d.total, start, end, lo, hi)))
  }

  function AddDelays(k: Delay, d: DelayDelta, start: int, end: int, lo: int, hi: int): Delay
    requires lo <= hi
  {
    var more := d.Comparable();
    Delay(d.version, d.enabled, d.enabledKnown,
          k.observed + if more then hi - lo else 0, k.pairs + if more then 1 else 0,
          if more then Max(k.maxGap, end - start) else k.maxGap, k.resets + d.resets,
          PerResource<DelayShare>.Each(r requires lo <= hi =>
                                         AddDelay(k.shares.At(r), d.deltas.At(r), start, end, lo, hi)))
  }

  function AddCounters(k: Sched, d: SchedDelta, start: int, end: int, lo: int, hi: int): Sched
    requires lo <= hi
  {
    Sched(SCHEDSTAT, k.observed + (hi - lo),
          k.onCPU + NanosecondsDuration(Piece(d.onCPU, start, end, lo, hi)),
          k.runqueue + NanosecondsDuration(Piece(d.runqueue, start, end, lo, hi)),
          k.timeslices + Piece(d.timeslices, start, end, lo, hi),
          k.statObserved + (hi - lo), k.statPairs + 1, Max(k.statMaxGap, end - start), k.statResets)
  }

  /** A visit's effect on its row, for the part `[lo, hi)` of the visited span. */
  function Effect(what: What, lo: int, hi: int, row: Row): Row
    requires lo <= hi
  {
    match what
    case Counters(d, start, end) => row.(sched := AddCounters(row.sched, d, start, end, lo, hi))
    case SchedReset => row.(sched := row.sched.(statResets := row.sched.statResets + 1))
    case DelayShares(d, start, end) => row.(delay := AddDelays(row.delay, d, start, end, lo, hi))
    case Gap(gap) => row.(sampling := row.sampling.(maxGap := Max(row.sampling.maxGap, gap)))
    case Segment(s) => row.AddSpent(s, hi - lo).(total := row.total + (hi - lo))
    case Change(start, mid, end) =>
      row.(sampling := row.sampling.(
             transitions := row.sampling.transitions + 1,
             uncertainty := row.sampling.uncertainty + Max(Common(lo, hi, start, mid), Common(lo, hi, mid, end))))
  }

  const NEW_WINDOW: Window := Window(map[], NewQuality(METHOD, true, false))

  function WindowAt(ws: map<int, Window>, w: int): Window { WindowOr(ws, w, NEW_WINDOW) }

  function RowFor(g: Grid, w: int, win: Window, s: Sample): Row {
    var row := if s.id in win.stats then win.stats[s.id] else EmptyRow(s.pid, s.id, s.comm, "", g, w);
    if s.comm != "" then row.(comm := s.comm) else row
  }

  /** A window once a visit has covered its part `[lo, hi)`. */
  function Visited(g: Grid, w: int, win: Window, v: Visit, lo: int, hi: int): Window
    requires lo <= hi
  {
    var row := Effect(v.what, lo, hi, RowFor(g, w, win, v.sample));
    var q := win.quality;
    Window(win.stats[v.sample.id := row],
           if v.what.Gap? then q.(scan := q.scan.(maxGap := Max(q.scan.maxGap, v.what.gap))) else q)
  }

  function Touch(g: Grid, w: int, win: Window, v: Visit): Window
    requires 0 < g.Overlap(v.lo, v.hi, w)
  {
    Visited(g, w, win, v, Max(v.lo, g.Start(w)), Min(v.hi, g.End(w)))
  }

  /** `forEachWindow`: every open window the span reaches is visited once, with its overlap. */
  function Apply(g: Grid, ws: map<int, Window>, floor: nat, v: Visit): map<int, Window>
    requires g.Valid()
  {
    var touched := g.Touched(floor, v.lo, v.hi);
    map w | w in ws.Keys + touched :: if w in touched then Touch(g, w, WindowAt(ws, w), v) else ws[w]
  }

  function ApplyAll(g: Grid, ws: map<int, Window>, floor: nat, vs: seq<Visit>): map<int, Window>
    requires g.Valid()
  {
    if vs == [] then ws else Apply(g, ApplyAll(g, ws, floor, vs[..|vs| - 1]), floor, vs[|vs| - 1])
  }

  // ---------------------------------------------------------------- gaps

  predicate SchedDecreased(p: Schedstat, c: Schedstat) {
    c.onCPU < p.onCPU || c.runqueue < p.runqueue || c.timeslices < p.timeslices
  }

  function SchedVisits(p: Sample, c: Sample, end: int): seq<Visit> {
    if !p.schedstat.available || !c.schedstat.available then []
    else if SchedDecreased(p.schedstat, c.schedstat) then [Visit(c, p.timestamp, end, SchedReset)]
    else [Visit(c, p.timestamp, end,
                Counters(SchedDelta(c.schedstat.onCPU - p.schedstat.onCPU, c.schedstat.runqueue - p.schedstat.runqueue,
                                    c.schedstat.timeslices - p.schedstat.timeslices), p.timestamp, end))]
  }

  predicate Comparable(p: DelayCounter, c: DelayCounter) { p.available && c.available }

  predicate Decreased(p: DelayCounter, c: DelayCounter) { c.count < p.count || c.total < p.total }

  function DeltaOf(p: DelayCounter, c: DelayCounter): CounterDelta {
    if !Comparable(p, c) || Decreased(p, c) then CounterDelta(false, 0, 0)
    else CounterDelta(true, c.count - p.count, c.total - p.total)
  }

  function ResetOf(p: DelayCounter, c: DelayCounter): nat { if Comparable(p, c) && Decreased(p, c) then 1 else 0 }

  function DelayDeltaOf(p: Delays, c: Delays): DelayDelta {
    var a, b := p.counters, c.counters;
    DelayDelta(c.version, c.enabled, c.enabledKnown,
               ResetOf(a.cpu, b.cpu) + ResetOf(a.blockIO, b.blockIO) + ResetOf(a.swapIn, b.swapIn)
               + ResetOf(a.reclaim, b.reclaim) + ResetOf(a.thrashing, b.thrashing) + ResetOf(a.compaction, b.compaction)
               + ResetOf(a.writeProtectCopy, b.writeProtectCopy) + ResetOf(a.irq, b.irq),
               PerResource<CounterDelta>.Each(r => DeltaOf(a.At(r), b.At(r))))
  }

  function DelayVisits(p: Sample, c: Sample, end: int): seq<Visit> {
    if !p.delays.available || !c.delays.available then []
    else
      var d := DelayDeltaOf(p.delays, c.delays);
      if !d.Comparable() && d.resets == 0 then []
      else [Visit(c, p.timestamp, end, DelayShares(d, p.timestamp, end))]
  }

  function StateVisits(p: Sample, c: Sample, end: int): seq<Visit> {
    var start := p.timestamp;
    if p.state == c.state then [Visit(p, start, end, Segment(p.state))]
    else
      var mid := Midpoint(start, end);
      [Visit(p, start, mid, Segment(p.state)), Visit(c, mid, end, Segment(c.state)),
       Visit(c, start, end, Change(start, mid, end))]
  }

  /** `observeGap`: a thread seen in two successive scans. */
  function GapVisits(p: Sample, c: Sample, end: int): seq<Visit> {
    if end <= p.timestamp then []
    else SchedVisits(p, c, end) + DelayVisits(p, c, end)
         + [Visit(p, p.timestamp, end, Gap(end - p.timestamp))] + StateVisits(p, c, end)
  }

  /** `observeDisappearance`: a thread missing from the new scan. */
  function LossVisits(p: Sample, end: int): seq<Visit> {
    var start, mid := p.timestamp, Midpoint(p.timestamp, end);
    if end <= start then []
    else [Visit(p, start, end, Gap(end - start)), Visit(p, start, mid, Segment(p.state)),
          Visit(p, mid, end, Segment(Unknown)), Visit(p, start, end, Change(start, mid, end))]
  }

  function SampleTime(s: Sample, snap: Snapshot): int { if s.timestamp == 0 then snap.finishedAt else s.timestamp }

  function LossTime(snap: Snapshot): int { if snap.startedAt == 0 then snap.finishedAt else snap.startedAt }

  /** Where the new scan leaves an identity of either scan. */
  function EndOf(current: map<Identity, Sample>, snap: Snapshot, id: Identity): int {
    if id in current then SampleTime(current[id], snap) else LossTime(snap)
  }

  function VisitsFor(p: Sample, current: map<Identity, Sample>, snap: Snapshot): seq<Visit> {
    if p.id in current then GapVisits(p, current[p.id], SampleTime(current[p.id], snap))
    else LossVisits(p, LossTime(snap))
  }

  /** Books the previous samples in `ids`, in some order. */
  ghost function BookAll(s: Sampler, ids: set<Identity>, current: map<Identity, Sample>, snap: Snapshot)
    : (r: map<int, Window>)
    requires s.grid.Valid() && ids <= s.previous.Keys
    decreases |ids|
  {
    if ids == {} then s.windows
    else
      var id := Any(ids);
      BookAll(BookOne(s, id, current, snap), ids - {id}, current, snap)
  }

  function BookOne(s: Sampler, id: Identity, current: map<Identity, Sample>, snap: Snapshot): Sampler
    requires s.grid.Valid() && id in s.previous
  {
    s.(windows := ApplyAll(s.grid, s.windows, s.nextWindow, VisitsFor(s.previous[id], current, snap)))
  }

  // ---------------------------------------------------------------- scans and observations

  function ByIdentity(samples: seq<Sample>): (m: map<Identity, Sample>)
    ensures forall id :: id in m ==> m[id].id == id && m[id] in samples
    ensures forall s :: s in samples ==> s.id in m
  {
    if samples == [] then map[]
    else ByIdentity(samples[..|samples| - 1])[samples[|samples| - 1].id := samples[|samples| - 1]]
  }

  /** Windows that count a scan. */
  function ScanIndices(s: Sampler, a: int, b: int): (ws: set<int>)
    requires s.grid.Valid()
  {
    if b <= s.grid.origin then {0}
    else if b <= a || s.grid.Touched(s.nextWindow, a, b) == {} then {s.grid.Index(b)}
    else s.grid.Touched(s.nextWindow, a, b)
  }

  function Scanned(win: Window, snap: Snapshot): Window {
    var q := win.quality;
    win.(quality := q.(samplingMethod := if snap.samplingMethod != "" then snap.samplingMethod else q.samplingMethod,
                       scan := q.scan.(snapshots := q.scan.snapshots + 1,
                                       maxScan := Max(q.scan.maxScan, Max(0, snap.finishedAt - snap.startedAt)))))
  }

  /** The scan counted once in each open window of `indices`. */
  function ScanInto(ws: map<int, Window>, next: nat, indices: set<int>, snap: Snapshot): map<int, Window> {
    map w | w in ws.Keys + (set k | k in indices && next <= k) ::
      if w in indices && next <= w then Scanned(WindowAt(ws, w), snap) else ws[w]
  }

  function RecordScan(s: Sampler, snap: Snapshot): map<int, Window>
    requires s.grid.Valid()
  {
    ScanInto(s.windows, s.nextWindow, ScanIndices(s, snap.startedAt, snap.finishedAt), snap)
  }

  function Observation(g: Grid, ws: map<int, Window>, next: nat, w: nat, s: Sample): map<int, Window> {
    if w < next then ws
    else
      var win := WindowAt(ws, w);
      var row := RowFor(g, w, win, s);
      ws[w := win.(stats := win.stats[s.id := row.(sampling := row.sampling.(samples := row.sampling.samples + 1))])]
  }

  function ObservationIndex(s: Sampler, at: int): nat
    requires s.grid.Valid()
  {
    if s.initialized && s.grid.origin <= at then s.grid.Index(at) else 0
  }

  /** `s.initialized` is false for the first scan, whose samples all count in window 0. */
  function CountSamples(s: Sampler, ws: map<int, Window>, samples: seq<Sample>): map<int, Window>
    requires s.grid.Valid()
  {
    if samples == [] then ws
    else
      var rest, last := samples[..|samples| - 1], samples[|samples| - 1];
      Observation(s.grid, CountSamples(s, ws, rest), s.nextWindow, ObservationIndex(s, last.timestamp), last)
  }

  // ---------------------------------------------------------------- finalisation

  /** A row's counters, added to its report's quality. */
  function SummarizeRow(p: Quality, row: Row): Quality {
    var sched, task, d := p.schedstat, p.taskstats, row.delay;
    var stat, has := 0 < row.sched.statPairs, row.HasDelays();
    p.(schedstat := SchedstatQuality(sched.available || stat, sched.threads + (if stat then 1 else 0),
                                     sched.resets + row.sched.statResets),
       taskstats := TaskstatsQuality(
         task.available || has, task.threads + if has then 1 else 0,
         if has && (task.versionMin == 0 || d.version < task.versionMin) then d.version else task.versionMin,
         if has && task.versionMax < d.version then d.version else task.versionMax,
         task.resets + d.resets,
         if !d.enabledKnown then task.enabled else if task.enabledKnown then task.enabled && d.enabled else d.enabled,
         task.enabledKnown || d.enabledKnown))
  }

  function Summarize(q: Quality, rows: seq<Row>): Quality {
    if rows == [] then q else SummarizeRow(Summarize(q, rows[..|rows| - 1]), rows[|rows| - 1])
  }

  ghost function ReportOf(g: Grid, ws: map<int, Window>, w: nat): Report {
    var win := WindowAt(ws, w);
    var rows, q := Rows(TicksFirst, win.stats), win.quality;
    Report(g.Start(w), g.End(w), rows,
           Summarize(q.(samplingMethod := if q.samplingMethod == "" then METHOD else q.samplingMethod, missed := true),
                     rows))
  }

  ghost function Reports(g: Grid, ws: map<int, Window>, next: nat, n: nat): (r: seq<Report>)
    requires next <= n
    ensures |r| == n - next
  {
    seq(n - next, i requires 0 <= i => ReportOf(g, ws, next + i))
  }

  function Pending(ws: map<int, Window>, next: nat, n: nat): map<int, Window> {
    map w | w in ws && !(next <= w < n) :: ws[w]
  }

  function NextOpen(s: Sampler, watermark: int): (n: nat)
    requires s.grid.Valid()
    ensures s.nextWindow <= n
  {
    if watermark < s.grid.origin then s.nextWindow else Max(s.nextWindow, s.grid.Index(watermark))
  }

  // ---------------------------------------------------------------- Observe

  /** The instants that hold the watermark back. */
  function Ends(s: Sampler, current: map<Identity, Sample>, snap: Snapshot): (ends: set<int>)
    ensures ends != {}
  {
    {snap.finishedAt} + set id | id in s.previous.Keys + current.Keys :: EndOf(current, snap, id)
  }

  lemma HasLeast(xs: set<int>) returns (m: int)
    requires xs != {}
    ensures m in xs && forall x :: x in xs ==> m <= x
  {
    var one := Any(xs);
    m := one;
    if xs - {one} != {} {
      var other := HasLeast(xs - {one});
      m := Min(one, other);
      forall x | x in xs ensures m <= x { assert x == one || x in xs - {one}; }
    } else {
      forall x | x in xs ensures m <= x { assert x == one || x in xs - {one}; }
    }
  }

  ghost function Least(xs: set<int>): (m: int)
    requires xs != {}
    ensures m in xs && forall x :: x in xs ==> m <= x
  {
    assert exists m :: m in xs && forall x :: x in xs ==> m <= x by { var m := HasLeast(xs); }
    var m :| m in xs && forall x :: x in xs ==> m <= x; m
  }

  /** Windows close once every thread has been seen past their end. */
  ghost function Watermark(s: Sampler, snap: Snapshot): int { Least(Ends(s, ByIdentity(snap.samples), snap)) }

  function First(s: Sampler, snap: Snapshot): Sampler
    requires s.grid.Valid()
  {
    var placed := s.(grid := if s.fixedOrigin then s.grid else s.grid.(origin := snap.finishedAt));
    placed.(initialized := true, previous := ByIdentity(snap.samples),
            windows := CountSamples(placed, RecordScan(placed, snap), snap.samples))
  }

  /** The state once a later scan has been booked, before windows close. */
  ghost function Booked(s: Sampler, snap: Snapshot): Sampler
    requires s.grid.Valid()
  {
    var counted := s.(windows := CountSamples(s, RecordScan(s, snap), snap.samples));
    s.(windows := BookAll(counted, s.previous.Keys, ByIdentity(snap.samples), snap),
       previous := ByIdentity(snap.samples))
  }

  ghost function Observe(s: Sampler, snap: Snapshot): (r: (Sampler, seq<Report>))
    requires s.grid.Valid()
  {
    if !s.initialized then (First(s, snap), [])
    else
      var b := Booked(s, snap);
      var n := NextOpen(s, Watermark(s, snap));
      (b.(nextWindow := n, windows := Pending(b.windows, s.nextWindow, n)), Reports(s.grid, b.windows, s.nextWindow, n))
  }
}
