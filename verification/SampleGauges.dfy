/** How the readings of a thread's rows grow, scan by scan. */
module SampleGauges {
  import opened Windows
  import opened Proportion
  import opened Model
  import opened Snapshots
  import opened SampleTimeline
  import opened SampleOrder
  import opened SampleRuns

  datatype Gauge =
    | OnCPUTime | QueueTime | Slices
    | DelayCount(r: Resource) | DelayTotal(r: Resource)
    | SpentIn(s: ThreadState) | Observed | Doubt | Transitions
    | StatResets | StatPairs | StatTime | SchedTime | DelayResets | DelayPairs | DelayTime

  function Value(row: Row, k: Gauge): int {
    match k
    case OnCPUTime => row.sched.onCPU
    case QueueTime => row.sched.runqueue
    case Slices => row.sched.timeslices
    case DelayCount(r) => row.delay.shares.At(r).count
    case DelayTotal(r) => row.delay.shares.At(r).total
    case SpentIn(s) => row.Spent(s)
    case Observed => row.total
    case Doubt => row.sampling.uncertainty
    case Transitions => row.sampling.transitions
    case StatResets => row.sched.statResets
    case StatPairs => row.sched.statPairs
    case StatTime => row.sched.statObserved
    case SchedTime => row.sched.observed
    case DelayResets => row.delay.resets
    case DelayPairs => row.delay.pairs
    case DelayTime => row.delay.observed
  }

  function ValueOf(win: Window, id: Identity, k: Gauge): int {
    if id in win.stats then Value(win.stats[id], k) else 0
  }

  /** What the part `[lo, hi)` of a visit adds. */
  function Gain(what: What, lo: int, hi: int, k: Gauge): int
    requires lo <= hi
  {
    match what
    case Counters(d, start, end) =>
      (match k
       case OnCPUTime => NanosecondsDuration(Piece(d.onCPU, start, end, lo, hi))
       case QueueTime => NanosecondsDuration(Piece(d.runqueue, start, end, lo, hi))
       case Slices => Piece(d.timeslices, start, end, lo, hi)
       case StatPairs => 1
       case StatTime => hi - lo
       case SchedTime => hi - lo
       case _ => 0)
    case SchedReset => if k.StatResets? then 1 else 0
    case DelayShares(d, start, end) =>
      (match k
       case DelayCount(r) => if d.deltas.At(r).available then Piece(d.deltas.At(r).count, start, end, lo, hi) else 0
       case DelayTotal(r) =>
         if d.deltas.At(r).available then NanosecondsDuration(Piece(d.deltas.At(r).total, start, end, lo, hi)) else 0
       case DelayResets => d.resets
       case DelayPairs => if d.Comparable() then 1 else 0
       case DelayTime => if d.Comparable() then hi - lo else 0
       case _ => 0)
    case Segment(s) => if k == SpentIn(s) || k.Observed? then hi - lo else 0
    case Change(start, mid, end) =>
      if k.Doubt? then Max(Common(lo, hi, start, mid), Common(lo, hi, mid, end)) else if k.Transitions? then 1 else 0
    case _ => 0
  }

  lemma EffectGains(what: What, lo: int, hi: int, row: Row, k: Gauge)
    requires lo <= hi
    ensures Value(Effect(what, lo, hi, row), k) == Value(row, k) + Gain(what, lo, hi, k)
  {
  }

  lemma FreshRow(g: Grid, w: int, win: Window, s: Sample, k: Gauge)
    ensures Value(RowFor(g, w, win, s), k) == ValueOf(win, s.id, k)
  {
  }

  /** What a visit adds to its thread's row in window `w`. */
  function GainIn(g: Grid, floor: nat, v: Visit, w: int, k: Gauge): int {
    if Reaches(g, floor, v, w) then Gain(v.what, Max(v.lo, g.Start(w)), Min(v.hi, g.End(w)), k) else 0
  }

  function GainInAll(g: Grid, floor: nat, vs: seq<Visit>, w: int, k: Gauge): int {
    if vs == [] then 0 else GainInAll(g, floor, vs[..|vs| - 1], w, k) + GainIn(g, floor, vs[|vs| - 1], w, k)
  }

  lemma ApplyGains(g: Grid, ws: map<int, Window>, floor: nat, v: Visit, w: int, id: Identity, k: Gauge)
    requires g.Valid()
    ensures ValueOf(WindowAt(Apply(g, ws, floor, v), w), id, k) ==
            ValueOf(WindowAt(ws, w), id, k) + if v.sample.id == id then GainIn(g, floor, v, w, k) else 0
  {
    ApplyAt(g, ws, floor, v, w);
    if Reaches(g, floor, v, w) {
      var row := RowFor(g, w, WindowAt(ws, w), v.sample);
      FreshRow(g, w, WindowAt(ws, w), v.sample, k);
      EffectGains(v.what, Max(v.lo, g.Start(w)), Min(v.hi, g.End(w)), row, k);
    }
  }

  lemma {:induction false} ApplyAllGains(g: Grid, ws: map<int, Window>, floor: nat, vs: seq<Visit>, owner: Identity,
                                         w: int, id: Identity, k: Gauge)
    requires g.Valid() && AllFor(vs, owner)
    ensures ValueOf(WindowAt(ApplyAll(g, ws, floor, vs), w), id, k) ==
            ValueOf(WindowAt(ws, w), id, k) + if owner == id then GainInAll(g, floor, vs, w, k) else 0
  {
    if vs != [] {
      var rest := vs[..|vs| - 1];
      ApplyAllGains(g, ws, floor, rest, owner, w, id, k);
      ApplyGains(g, ApplyAll(g, ws, floor, rest), floor, vs[|vs| - 1], w, id, k);
    }
  }

  lemma {:induction false} BookAllGains(s: Sampler, ids: set<Identity>, current: map<Identity, Sample>, snap: Snapshot,
                                        w: int, id: Identity, k: Gauge)
    requires s.Valid() && Keyed(current) && ids <= s.previous.Keys
    ensures ValueOf(WindowAt(BookAll(s, ids, current, snap), w), id, k) ==
            ValueOf(WindowAt(s.windows, w), id, k)
            + if id in ids then GainInAll(s.grid, s.nextWindow, VisitsFor(s.previous[id], current, snap), w, k) else 0
    decreases |ids|
  {
    if ids != {} {
      var one := Any(ids);
      var vs := VisitsFor(s.previous[one], current, snap);
      OwnVisits(s.previous[one], current, snap);
      ApplyAllGains(s.grid, s.windows, s.nextWindow, vs, one, w, id, k);
      BookAllGains(BookOne(s, one, current, snap), ids - {one}, current, snap, w, id, k);
    }
  }

  lemma ObservationGainsNothing(g: Grid, ws: map<int, Window>, next: nat, at: nat, c: Sample, w: int, id: Identity,
                                k: Gauge)
    ensures ValueOf(WindowAt(Observation(g, ws, next, at, c), w), id, k) == ValueOf(WindowAt(ws, w), id, k)
  {
    FreshRow(g, at, WindowAt(ws, at), c, k);
  }

  lemma {:induction false} CountGainsNothing(s: Sampler, ws: map<int, Window>, samples: seq<Sample>, w: int,
                                             id: Identity, k: Gauge)
    requires s.grid.Valid()
    ensures ValueOf(WindowAt(CountSamples(s, ws, samples), w), id, k) == ValueOf(WindowAt(ws, w), id, k)
  {
    if samples != [] {
      var rest, last := samples[..|samples| - 1], samples[|samples| - 1];
      CountGainsNothing(s, ws, rest, w, id, k);
      var at := ObservationIndex(s, last.timestamp);
      ObservationGainsNothing(s.grid, CountSamples(s, ws, rest), s.nextWindow, at, last, w, id, k);
    }
  }

  lemma {:induction false} GainsFromOpen(g: Grid, next: nat, vs: seq<Visit>, w: nat, k: Gauge)
    requires g.Valid() && AllFrom(vs, g, next)
    ensures GainInAll(g, next, vs, w, k) == GainInAll(g, 0, vs, w, k)
  {
    if vs != [] {
      GainsFromOpen(g, next, vs[..|vs| - 1], w, k);
      if w < next { g.Ordered(w, next); }
    }
  }

  lemma {:induction false} GainsBelow(g: Grid, next: nat, vs: seq<Visit>, w: nat, k: Gauge)
    requires w < next
    ensures GainInAll(g, next, vs, w, k) == 0
  {
    if vs != [] { GainsBelow(g, next, vs[..|vs| - 1], w, k); }
  }

  lemma FirstGains(s: Sampler, snap: Snapshot, w: int, id: Identity, k: Gauge)
    requires s.grid.Valid()
    ensures ValueOf(WindowAt(First(s, snap).windows, w), id, k) == ValueOf(WindowAt(s.windows, w), id, k)
  {
    var placed := s.(grid := if s.fixedOrigin then s.grid else s.grid.(origin := snap.finishedAt));
    CountGainsNothing(placed, RecordScan(placed, snap), snap.samples, w, id, k);
  }

  lemma BookedGains(s: Sampler, snap: Snapshot, w: nat, id: Identity, k: Gauge)
    requires s.Valid()
    ensures ValueOf(WindowAt(Booked(s, snap).windows, w), id, k) == ValueOf(WindowAt(s.windows, w), id, k)
            + if id in s.previous
              then GainInAll(s.grid, s.nextWindow, VisitsFor(s.previous[id], ByIdentity(snap.samples), snap), w, k)
              else 0
  {
    var counted := s.(windows := CountSamples(s, RecordScan(s, snap), snap.samples));
    CountGainsNothing(s, RecordScan(s, snap), snap.samples, w, id, k);
    BookAllGains(counted, s.previous.Keys, ByIdentity(snap.samples), snap, w, id, k);
  }

  /** What one scan adds to a thread's row in window `w`. */
  ghost function ScanGain(r: SampleRun, snap: Snapshot, w: nat, id: Identity, k: Gauge): int {
    if id in r.s.previous
    then GainInAll(r.s.grid, 0, VisitsFor(r.s.previous[id], ByIdentity(snap.samples), snap), w, k) else 0
  }

  /** Emission moves windows unchanged. */
  lemma OpenWindow(r: SampleRun, snap: Snapshot, last: int, w: nat)
    requires Settled(r, last) && r.s.initialized && r.s.nextWindow <= w
    ensures WindowOf(Scan(r, snap), w) == WindowAt(Booked(r.s, snap).windows, w)
  {
  }

  /** Booking never reaches an emitted window. */
  lemma EmittedWindow(r: SampleRun, snap: Snapshot, last: int, w: nat)
    requires Settled(r, last) && w < r.s.nextWindow
    ensures WindowOf(Scan(r, snap), w) == WindowOf(r, w)
  {
  }

  /** What the thread's visits gain, whether or not emitted windows are left out: nothing there. */
  lemma OwnGains(r: SampleRun, snap: Snapshot, last: int, w: nat, id: Identity, k: Gauge)
    requires Settled(r, last) && id in r.s.previous
    ensures var vs, next := VisitsFor(r.s.previous[id], ByIdentity(snap.samples), snap), r.s.nextWindow;
            GainInAll(r.s.grid, 0, vs, w, k) == if w < next then 0 else GainInAll(r.s.grid, next, vs, w, k)
  {
    var vs := VisitsFor(r.s.previous[id], ByIdentity(snap.samples), snap);
    VisitsFrom(r.s.previous[id], ByIdentity(snap.samples), snap, r.s.grid, r.s.nextWindow);
    GainsFromOpen(r.s.grid, r.s.nextWindow, vs, w, k);
    if w < r.s.nextWindow { GainsBelow(r.s.grid, r.s.nextWindow, vs, w, k); }
  }

  /** One scan adds to each of a thread's rows what its own gap gains there, whatever other threads do. */
  lemma ScanGains(r: SampleRun, snap: Snapshot, last: int, w: nat, id: Identity, k: Gauge)
    requires Settled(r, last) && Bracketed(snap, last)
    ensures ValueOf(WindowOf(Scan(r, snap), w), id, k) == ValueOf(WindowOf(r, w), id, k) + ScanGain(r, snap, w, id, k)
  {
    if !r.s.initialized {
      FirstGains(r.s, snap, w, id, k);
    } else {
      if id in r.s.previous { OwnGains(r, snap, last, w, id, k); }
      if w < r.s.nextWindow {
        EmittedWindow(r, snap, last, w);
      } else {
        OpenWindow(r, snap, last, w);
        BookedGains(r.s, snap, w, id, k);
      }
    }
  }
}
