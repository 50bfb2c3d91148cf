/** The longest gaps between readings that rows admit. */
module SamplePeaks {
  import opened Wrappers
  import opened Windows
  import opened Model
  import opened Snapshots
  import opened SampleTimeline
  import opened SampleOrder
  import opened SampleRuns
  import opened SampleGauges
  import opened SampleThreads
  import opened Conservation
  import opened Restarts

  /** Gaps between two samples, between two schedstat readings, and between two taskstats readings. */
  datatype Peak = SampleGap | StatGap | DelayGap

  function PeakIn(row: Row, k: Peak): int {
    match k
    case SampleGap => row.sampling.maxGap
    case StatGap => row.sched.statMaxGap
    case DelayGap => row.delay.maxGap
  }

  function PeakOf(win: Window, id: Identity, k: Peak): int {
    if id in win.stats then PeakIn(win.stats[id], k) else 0
  }

  /** The gap that a visit reports, if it reports one. */
  function Rise(what: What, k: Peak): int {
    match what
    case Gap(gap) => if k.SampleGap? then gap else 0
    case Counters(_, start, end) => if k.StatGap? then end - start else 0
    case DelayShares(d, start, end) => if k.DelayGap? && d.Comparable() then end - start else 0
    case _ => 0
  }

  function RiseIn(g: Grid, floor: nat, v: Visit, w: int, k: Peak): nat {
    if Reaches(g, floor, v, w) then Max(0, Rise(v.what, k)) else 0
  }

  function RiseInAll(g: Grid, floor: nat, vs: seq<Visit>, w: int, k: Peak): nat {
    if vs == [] then 0 else Max(RiseInAll(g, floor, vs[..|vs| - 1], w, k), RiseIn(g, floor, vs[|vs| - 1], w, k))
  }

  lemma EffectRises(what: What, lo: int, hi: int, row: Row, k: Peak)
    requires lo <= hi && 0 <= PeakIn(row, k)
    ensures PeakIn(Effect(what, lo, hi, row), k) == Max(PeakIn(row, k), Rise(what, k))
  {
  }

  lemma ApplyRises(g: Grid, ws: map<int, Window>, floor: nat, v: Visit, w: int, id: Identity, k: Peak)
    requires g.Valid() && 0 <= PeakOf(WindowAt(ws, w), id, k)
    ensures PeakOf(WindowAt(Apply(g, ws, floor, v), w), id, k) ==
            Max(PeakOf(WindowAt(ws, w), id, k), if v.sample.id == id then RiseIn(g, floor, v, w, k) else 0)
  {
    ApplyAt(g, ws, floor, v, w);
    if Reaches(g, floor, v, w) && v.sample.id == id {
      var row := RowFor(g, w, WindowAt(ws, w), v.sample);
      assert PeakIn(row, k) == PeakOf(WindowAt(ws, w), id, k);
      EffectRises(v.what, Max(v.lo, g.Start(w)), Min(v.hi, g.End(w)), row, k);
    }
  }

  lemma {:induction false} ApplyAllRises(g: Grid, ws: map<int, Window>, floor: nat, vs: seq<Visit>, owner: Identity,
                                         w: int, id: Identity, k: Peak)
    requires g.Valid() && AllFor(vs, owner) && 0 <= PeakOf(WindowAt(ws, w), id, k)
    ensures PeakOf(WindowAt(ApplyAll(g, ws, floor, vs), w), id, k) ==
            Max(PeakOf(WindowAt(ws, w), id, k), if owner == id then RiseInAll(g, floor, vs, w, k) else 0)
  {
    if vs != [] {
      var rest := vs[..|vs| - 1];
      ApplyAllRises(g, ws, floor, rest, owner, w, id, k);
      ApplyRises(g, ApplyAll(g, ws, floor, rest), floor, vs[|vs| - 1], w, id, k);
    }
  }

  lemma {:induction false} BookAllRises(s: Sampler, ids: set<Identity>, current: map<Identity, Sample>, snap: Snapshot,
                                        w: int, id: Identity, k: Peak)
    requires s.Valid() && Keyed(current) && ids <= s.previous.Keys && 0 <= PeakOf(WindowAt(s.windows, w), id, k)
    ensures PeakOf(WindowAt(BookAll(s, ids, current, snap), w), id, k) ==
            Max(PeakOf(WindowAt(s.windows, w), id, k),
                if id !in ids then 0
                else RiseInAll(s.grid, s.nextWindow, VisitsFor(s.previous[id], current, snap), w, k))
    decreases |ids|
  {
    if ids != {} {
      var one := Any(ids);
      var vs := VisitsFor(s.previous[one], current, snap);
      OwnVisits(s.previous[one], current, snap);
      ApplyAllRises(s.grid, s.windows, s.nextWindow, vs, one, w, id, k);
      BookAllRises(BookOne(s, one, current, snap), ids - {one}, current, snap, w, id, k);
    }
  }

  lemma {:induction false} CountRisesNothing(s: Sampler, ws: map<int, Window>, samples: seq<Sample>, w: int,
                                             id: Identity, k: Peak)
    requires s.grid.Valid()
    ensures PeakOf(WindowAt(CountSamples(s, ws, samples), w), id, k) == PeakOf(WindowAt(ws, w), id, k)
  {
    if samples != [] { CountRisesNothing(s, ws, samples[..|samples| - 1], w, id, k); }
  }

  lemma {:induction false} RisesFromOpen(g: Grid, next: nat, vs: seq<Visit>, w: nat, k: Peak)
    requires g.Valid() && AllFrom(vs, g, next)
    ensures RiseInAll(g, next, vs, w, k) == RiseInAll(g, 0, vs, w, k)
    ensures w < next ==> RiseInAll(g, 0, vs, w, k) == 0
  {
    if vs != [] {
      RisesFromOpen(g, next, vs[..|vs| - 1], w, k);
      if w < next { g.Ordered(w, next); }
    }
  }

  /** What one scan can raise a thread's peak to. */
  ghost function ScanRise(r: SampleRun, snap: Snapshot, w: nat, id: Identity, k: Peak): nat {
    if id in r.s.previous
    then RiseInAll(r.s.grid, 0, VisitsFor(r.s.previous[id], ByIdentity(snap.samples), snap), w, k) else 0
  }

  lemma OwnRises(r: SampleRun, snap: Snapshot, last: int, w: nat, id: Identity, k: Peak)
    requires Settled(r, last) && id in r.s.previous
    ensures var vs := VisitsFor(r.s.previous[id], ByIdentity(snap.samples), snap);
            RiseInAll(r.s.grid, 0, vs, w, k) ==
            if w < r.s.nextWindow then 0 else RiseInAll(r.s.grid, r.s.nextWindow, vs, w, k)
  {
    VisitsFrom(r.s.previous[id], ByIdentity(snap.samples), snap, r.s.grid, r.s.nextWindow);
    RisesFromOpen(r.s.grid, r.s.nextWindow, VisitsFor(r.s.previous[id], ByIdentity(snap.samples), snap), w, k);
  }

  lemma OpenRises(r: SampleRun, snap: Snapshot, last: int, w: nat, id: Identity, k: Peak)
    requires Settled(r, last) && Bracketed(snap, last) && r.s.initialized && r.s.nextWindow <= w
    requires 0 <= PeakOf(WindowOf(r, w), id, k)
    ensures PeakOf(WindowOf(Scan(r, snap), w), id, k) == Max(PeakOf(WindowOf(r, w), id, k), ScanRise(r, snap, w, id, k))
  {
    OpenWindow(r, snap, last, w);
    var current := ByIdentity(snap.samples);
    var counted := r.s.(windows := CountSamples(r.s, RecordScan(r.s, snap), snap.samples));
    CountRisesNothing(r.s, RecordScan(r.s, snap), snap.samples, w, id, k);
    BookAllRises(counted, r.s.previous.Keys, current, snap, w, id, k);
    if id in r.s.previous { OwnRises(r, snap, last, w, id, k); }
  }

  lemma ClosedRises(r: SampleRun, snap: Snapshot, last: int, w: nat, id: Identity, k: Peak)
    requires Settled(r, last) && Bracketed(snap, last) && w < r.s.nextWindow
    ensures PeakOf(WindowOf(Scan(r, snap), w), id, k) == PeakOf(WindowOf(r, w), id, k)
    ensures ScanRise(r, snap, w, id, k) == 0
  {
    EmittedWindow(r, snap, last, w);
    if id in r.s.previous { OwnRises(r, snap, last, w, id, k); }
  }

  lemma FirstRises(r: SampleRun, snap: Snapshot, last: int, w: nat, id: Identity, k: Peak)
    requires Settled(r, last) && Bracketed(snap, last) && !r.s.initialized
    ensures PeakOf(WindowOf(Scan(r, snap), w), id, k) == PeakOf(WindowOf(r, w), id, k) == 0
    ensures ScanRise(r, snap, w, id, k) == 0
  {
    var placed := r.s.(grid := if r.s.fixedOrigin then r.s.grid else r.s.grid.(origin := snap.finishedAt));
    CountRisesNothing(placed, RecordScan(placed, snap), snap.samples, w, id, k);
  }

  lemma ScanRises(r: SampleRun, snap: Snapshot, last: int, w: nat, id: Identity, k: Peak)
    requires Settled(r, last) && Bracketed(snap, last) && 0 <= PeakOf(WindowOf(r, w), id, k)
    ensures PeakOf(WindowOf(Scan(r, snap), w), id, k) == Max(PeakOf(WindowOf(r, w), id, k), ScanRise(r, snap, w, id, k))
  {
    if !r.s.initialized {
      FirstRises(r, snap, last, w, id, k);
    } else if w < r.s.nextWindow {
      ClosedRises(r, snap, last, w, id, k);
    } else {
      OpenRises(r, snap, last, w, id, k);
    }
  }

  // ---------------------------------------------------------------- which gaps

  /** The length of a gap that both scans' readings span, by kind. */
  function Spanned(p: Sample, c: Sample, k: Peak): bool {
    match k
    case SampleGap => true
    case StatGap => SameSchedstat(p.schedstat, c.schedstat)
    case DelayGap => GoesOn(p.delays, c.delays)
  }

  lemma {:induction false} RisesJoin(g: Grid, a: seq<Visit>, b: seq<Visit>, w: int, k: Peak)
    ensures RiseInAll(g, 0, a + b, w, k) == Max(RiseInAll(g, 0, a, w, k), RiseInAll(g, 0, b, w, k))
  {
    if b == [] {
      assert a + b == a;
    } else {
      assert (a + b)[..|a + b| - 1] == a + b[..|b| - 1];
      RisesJoin(g, a, b[..|b| - 1], w, k);
    }
  }

  lemma OneRise(g: Grid, v: Visit, w: int, k: Peak)
    ensures RiseInAll(g, 0, [v], w, k) == RiseIn(g, 0, v, w, k) && RiseInAll(g, 0, [], w, k) == 0
  {
    assert [v][..0] == [];
  }

  lemma {:induction false} NoRise(g: Grid, vs: seq<Visit>, w: int, k: Peak)
    requires forall v :: v in vs ==> v.what.Segment? || v.what.Change?
    ensures RiseInAll(g, 0, vs, w, k) == 0
  {
    if vs != [] {
      assert vs[|vs| - 1] in vs;
      NoRise(g, vs[..|vs| - 1], w, k);
    }
  }

  lemma SchedRise(g: Grid, p: Sample, c: Sample, end: int, w: nat, k: Peak)
    requires p.timestamp < end && 0 < g.Overlap(p.timestamp, end, w)
    ensures RiseInAll(g, 0, SchedVisits(p, c, end), w, k) ==
            if k.StatGap? && Spanned(p, c, k) then end - p.timestamp else 0
  {
    var vs := SchedVisits(p, c, end);
    OneRise(g, if vs == [] then Visit(p, 0, 0, SchedReset) else vs[0], w, k);
  }

  lemma DelayRise(g: Grid, p: Sample, c: Sample, end: int, w: nat, k: Peak)
    requires p.timestamp < end && 0 < g.Overlap(p.timestamp, end, w)
    ensures RiseInAll(g, 0, DelayVisits(p, c, end), w, k) ==
            if k.DelayGap? && Spanned(p, c, k) then end - p.timestamp else 0
  {
    var vs := DelayVisits(p, c, end);
    if p.delays.available && c.delays.available { ComparableMeans(p.delays, c.delays); }
    OneRise(g, if vs == [] then Visit(p, 0, 0, SchedReset) else vs[0], w, k);
  }

  lemma TimeRise(g: Grid, p: Sample, c: Sample, end: int, w: nat, k: Peak)
    requires p.timestamp < end && 0 < g.Overlap(p.timestamp, end, w)
    ensures RiseInAll(g, 0, TimePart(p, c, end), w, k) == if k.SampleGap? then end - p.timestamp else 0
  {
    var gap := Visit(p, p.timestamp, end, Gap(end - p.timestamp));
    RisesJoin(g, [gap], StateVisits(p, c, end), w, k);
    OneRise(g, gap, w, k);
    NoRise(g, StateVisits(p, c, end), w, k);
  }

  lemma GapRise(g: Grid, p: Sample, c: Sample, end: int, w: nat, k: Peak)
    requires p.timestamp < end && 0 < g.Overlap(p.timestamp, end, w)
    ensures RiseInAll(g, 0, GapVisits(p, c, end), w, k) == if Spanned(p, c, k) then end - p.timestamp else 0
  {
    GapInOrder(p, c, end);
    RisesJoin(g, SchedVisits(p, c, end) + DelayVisits(p, c, end), TimePart(p, c, end), w, k);
    RisesJoin(g, SchedVisits(p, c, end), DelayVisits(p, c, end), w, k);
    SchedRise(g, p, c, end, w, k);
    DelayRise(g, p, c, end, w, k);
    TimeRise(g, p, c, end, w, k);
  }

  lemma LossRise(g: Grid, p: Sample, end: int, w: nat, k: Peak)
    requires p.timestamp < end && 0 < g.Overlap(p.timestamp, end, w)
    ensures RiseInAll(g, 0, LossVisits(p, end), w, k) == if k.SampleGap? then end - p.timestamp else 0
  {
    var vs := LossVisits(p, end);
    assert vs == [vs[0]] + vs[1..];
    RisesJoin(g, [vs[0]], vs[1..], w, k);
    OneRise(g, vs[0], w, k);
    NoRise(g, vs[1..], w, k);
  }

  // ---------------------------------------------------------------- runs

  lemma {:induction false} PeaksNonNegative(states: seq<SampleRun>, snaps: seq<Snapshot>, n: nat, w: nat,
                                            id: Identity, k: Peak)
    requires Runs(states, snaps) && n <= |snaps|
    ensures 0 <= PeakOf(WindowOf(states[n], w), id, k)
  {
    if n != 0 {
      PeaksNonNegative(states, snaps, n - 1, w, id, k);
      ScanReady(states, snaps, n - 1);
      assert StepAt(states, snaps, n - 1) && FollowsOn(snaps, n - 1);
      ScanRises(states[n - 1], snaps[n - 1], ScannedUntil(snaps, n - 1), w, id, k);
    }
  }

  /** The peak of a row after a scan: the one before, or the gap since the thread's last sample if the gap reaches
      the row's window, both scans have the readings, and it is longer. */
  function Raised(before: int, g: Grid, w: nat, start: int, end: int, counts: bool): int {
    if counts && 0 < g.Overlap(start, end, w) then Max(before, end - start) else before
  }

  lemma PeakStep(states: seq<SampleRun>, snaps: seq<Snapshot>, i: nat, w: nat, id: Identity, k: Peak)
    requires Runs(states, snaps) && i < |snaps|
    ensures PeakOf(WindowOf(states[i + 1], w), id, k) ==
            Max(PeakOf(WindowOf(states[i], w), id, k), ScanRise(states[i], snaps[i], w, id, k))
    ensures 0 <= PeakOf(WindowOf(states[i], w), id, k)
  {
    PeaksNonNegative(states, snaps, i, w, id, k);
    ScanReady(states, snaps, i);
    assert StepAt(states, snaps, i) && FollowsOn(snaps, i);
    ScanRises(states[i], snaps[i], ScannedUntil(snaps, i), w, id, k);
  }

  lemma {:induction false} NoReach(g: Grid, vs: seq<Visit>, lo: int, hi: int, w: nat, k: Peak)
    requires g.Overlap(lo, hi, w) == 0
    requires forall v :: v in vs ==> (v.lo == lo && v.hi == hi) || v.what.Segment?
    ensures RiseInAll(g, 0, vs, w, k) == 0
  {
    if vs != [] {
      assert vs[|vs| - 1] in vs;
      NoReach(g, vs[..|vs| - 1], lo, hi, w, k);
    }
  }

  lemma GapSpans(p: Sample, c: Sample, end: int)
    ensures forall v :: v in GapVisits(p, c, end) ==> (v.lo == p.timestamp && v.hi == end) || v.what.Segment?
    ensures forall v :: v in LossVisits(p, end) ==> (v.lo == p.timestamp && v.hi == end) || v.what.Segment?
  {
  }

  lemma GapRaises(g: Grid, p: Sample, c: Sample, end: int, w: nat, k: Peak, before: nat)
    ensures Max(before, RiseInAll(g, 0, GapVisits(p, c, end), w, k)) ==
            Raised(before, g, w, p.timestamp, end, Spanned(p, c, k))
    ensures Max(before, RiseInAll(g, 0, LossVisits(p, end), w, k)) ==
            Raised(before, g, w, p.timestamp, end, k.SampleGap?)
  {
    if 0 < g.Overlap(p.timestamp, end, w) {
      GapRise(g, p, c, end, w, k);
      LossRise(g, p, end, w, k);
    } else {
      GapSpans(p, c, end);
      NoReach(g, GapVisits(p, c, end), p.timestamp, end, w, k);
      NoReach(g, LossVisits(p, end), p.timestamp, end, w, k);
    }
  }

  lemma PeakOfTwice(states: seq<SampleRun>, snaps: seq<Snapshot>, i: nat, p: Sample, c: Sample, w: nat, id: Identity,
                    k: Peak)
    requires Runs(states, snaps) && i + 1 < |snaps|
    requires LastSample(snaps[i].samples, id) == Some(p) && LastSample(snaps[i + 1].samples, id) == Some(c)
    ensures PeakOf(WindowOf(states[i + 2], w), id, k) ==
            Raised(PeakOf(WindowOf(states[i + 1], w), id, k), states[i + 1].s.grid, w, p.timestamp, c.timestamp,
                   Spanned(p, c, k))
  {
    PeakStep(states, snaps, i + 1, w, id, k);
    ScanWaits(states, snaps, i, id);
    LastIsKept(snaps[i + 1].samples, id);
    InScan(snaps, i, p, id);
    InScan(snaps, i + 1, c, id);
    GapRaises(states[i + 1].s.grid, p, c, c.timestamp, w, k, PeakOf(WindowOf(states[i + 1], w), id, k));
  }

  lemma PeakOfLast(states: seq<SampleRun>, snaps: seq<Snapshot>, i: nat, p: Sample, w: nat, id: Identity, k: Peak)
    requires Runs(states, snaps) && i + 1 < |snaps|
    requires LastSample(snaps[i].samples, id) == Some(p) && LastSample(snaps[i + 1].samples, id) == None
    ensures PeakOf(WindowOf(states[i + 2], w), id, k) ==
            Raised(PeakOf(WindowOf(states[i + 1], w), id, k), states[i + 1].s.grid, w, p.timestamp,
                   snaps[i + 1].startedAt, k.SampleGap?)
  {
    PeakStep(states, snaps, i + 1, w, id, k);
    ScanWaits(states, snaps, i, id);
    LastIsKept(snaps[i + 1].samples, id);
    InScan(snaps, i, p, id);
    assert FollowsOn(snaps, i + 1);
    var end := snaps[i + 1].startedAt;
    GapRaises(states[i + 1].s.grid, p, p, end, w, k, PeakOf(WindowOf(states[i + 1], w), id, k));
  }

  // ---------------------------------------------------------------- the longest gap of a window

  function WindowGap(win: Window): int { win.quality.scan.maxGap }

  lemma ApplyGap(g: Grid, ws: map<int, Window>, floor: nat, v: Visit, w: int)
    requires g.Valid() && 0 <= WindowGap(WindowAt(ws, w))
    ensures WindowGap(WindowAt(Apply(g, ws, floor, v), w)) ==
            Max(WindowGap(WindowAt(ws, w)), RiseIn(g, floor, v, w, SampleGap))
  {
    ApplyAt(g, ws, floor, v, w);
  }

  lemma {:induction false} ApplyAllGap(g: Grid, ws: map<int, Window>, floor: nat, vs: seq<Visit>, w: int)
    requires g.Valid() && 0 <= WindowGap(WindowAt(ws, w))
    ensures WindowGap(WindowAt(ApplyAll(g, ws, floor, vs), w)) ==
            Max(WindowGap(WindowAt(ws, w)), RiseInAll(g, floor, vs, w, SampleGap))
  {
    if vs != [] {
      ApplyAllGap(g, ws, floor, vs[..|vs| - 1], w);
      ApplyGap(g, ApplyAll(g, ws, floor, vs[..|vs| - 1]), floor, vs[|vs| - 1], w);
    }
  }

  /** The rise that a thread's previous sample brings to a window. */
  function RiseOf(s: Sampler, id: Identity, current: map<Identity, Sample>, snap: Snapshot, w: int): nat
    requires id in s.previous
  {
    RiseInAll(s.grid, s.nextWindow, VisitsFor(s.previous[id], current, snap), w, SampleGap)
  }

  /** The greatest of what was there and of the rises of some threads. */
  ghost predicate Greatest(s: Sampler, ids: set<Identity>, current: map<Identity, Sample>, snap: Snapshot, w: int,
                           before: int, after: int)
    requires ids <= s.previous.Keys
  {
    && before <= after && (forall id :: id in ids ==> RiseOf(s, id, current, snap, w) <= after)
    && (after == before || exists id :: id in ids && RiseOf(s, id, current, snap, w) == after)
  }

  lemma OneMoreRise(s: Sampler, one: Identity, ids: set<Identity>, current: map<Identity, Sample>, snap: Snapshot,
                    w: int, before: int, after: int)
    requires one in ids && ids <= s.previous.Keys
    requires Greatest(s, ids - {one}, current, snap, w, Max(before, RiseOf(s, one, current, snap, w)), after)
    ensures Greatest(s, ids, current, snap, w, before, after)
  {
    forall id | id in ids ensures RiseOf(s, id, current, snap, w) <= after {
      if id != one { assert id in ids - {one}; }
    }
  }

  lemma {:induction false} BookAllGap(s: Sampler, ids: set<Identity>, current: map<Identity, Sample>, snap: Snapshot,
                                      w: int)
    requires s.grid.Valid() && ids <= s.previous.Keys && 0 <= WindowGap(WindowAt(s.windows, w))
    ensures Greatest(s, ids, current, snap, w, WindowGap(WindowAt(s.windows, w)),
                     WindowGap(WindowAt(BookAll(s, ids, current, snap), w)))
    decreases |ids|
  {
    if ids != {} {
      var one := Any(ids);
      var q := BookOne(s, one, current, snap);
      ApplyAllGap(s.grid, s.windows, s.nextWindow, VisitsFor(s.previous[one], current, snap), w);
      BookAllGap(q, ids - {one}, current, snap, w);
      var after := WindowGap(WindowAt(BookAll(s, ids, current, snap), w));
      SameRises(s, q, ids - {one}, current, snap, w, WindowGap(WindowAt(q.windows, w)), after);
      OneMoreRise(s, one, ids, current, snap, w, WindowGap(WindowAt(s.windows, w)), after);
    }
  }

  lemma SameRises(s: Sampler, q: Sampler, ids: set<Identity>, current: map<Identity, Sample>, snap: Snapshot, w: int,
                  before: int, after: int)
    requires ids <= s.previous.Keys && q.(windows := s.windows) == s
    requires Greatest(q, ids, current, snap, w, before, after)
    ensures Greatest(s, ids, current, snap, w, before, after)
  {
    forall id | id in ids ensures RiseOf(s, id, current, snap, w) == RiseOf(q, id, current, snap, w) {}
  }

  lemma {:induction false} CountKeepsGap(s: Sampler, ws: map<int, Window>, samples: seq<Sample>, w: int)
    requires s.grid.Valid()
    ensures WindowGap(WindowAt(CountSamples(s, ws, samples), w)) == WindowGap(WindowAt(ws, w))
  {
    if samples != [] { CountKeepsGap(s, ws, samples[..|samples| - 1], w); }
  }

  lemma RecordKeepsGap(s: Sampler, snap: Snapshot, w: int)
    requires s.grid.Valid()
    ensures WindowGap(WindowAt(RecordScan(s, snap), w)) == WindowGap(WindowAt(s.windows, w))
  {
  }

  lemma BookedGap(s: Sampler, snap: Snapshot, w: int)
    requires s.grid.Valid() && 0 <= WindowGap(WindowAt(s.windows, w))
    ensures Greatest(s, s.previous.Keys, ByIdentity(snap.samples), snap, w, WindowGap(WindowAt(s.windows, w)),
                     WindowGap(WindowAt(Booked(s, snap).windows, w)))
  {
    var counted := s.(windows := CountSamples(s, RecordScan(s, snap), snap.samples));
    RecordKeepsGap(s, snap, w);
    CountKeepsGap(s, RecordScan(s, snap), snap.samples, w);
    BookAllGap(counted, s.previous.Keys, ByIdentity(snap.samples), snap, w);
    SameRises(s, counted, s.previous.Keys, ByIdentity(snap.samples), snap, w, WindowGap(WindowAt(s.windows, w)),
              WindowGap(WindowAt(Booked(s, snap).windows, w)));
  }

  // ------------------------------------------------- ... through a run

  /** Where scan `i + 1` ends the gap of a thread that scan `i` saw. */
  function GapEnd(snaps: seq<Snapshot>, i: nat, id: Identity): int
    requires i + 1 < |snaps|
  {
    match LastSample(snaps[i + 1].samples, id)
    case Some(c) => c.timestamp
    case None => snaps[i + 1].startedAt
  }

  /** `gap` is that of some thread which scan `i` saw, and reaches window `w`. */
  predicate GapOf(snaps: seq<Snapshot>, i: nat, id: Identity, g: Grid, w: nat, gap: int)
    requires i + 1 < |snaps|
  {
    match LastSample(snaps[i].samples, id)
    case Some(p) => 0 < g.Overlap(p.timestamp, GapEnd(snaps, i, id), w) && gap == GapEnd(snaps, i, id) - p.timestamp
    case None => false
  }

  lemma RiseIsGap(states: seq<SampleRun>, snaps: seq<Snapshot>, i: nat, id: Identity, w: nat, gap: int)
    requires Runs(states, snaps) && i + 1 < |snaps| && |states[i + 1].emitted| <= w && 0 < gap
    ensures var s := states[i + 1].s;
            GapOf(snaps, i, id, s.grid, w, gap) <==>
            id in s.previous && RiseOf(s, id, ByIdentity(snaps[i + 1].samples), snaps[i + 1], w) == gap
  {
    var s, snap := states[i + 1].s, snaps[i + 1];
    ScanWaits(states, snaps, i, id);
    LastIsKept(snap.samples, id);
    RunSettles(states, snaps, i);
    assert FollowsOn(snaps, i + 1);
    if id in s.previous {
      var p := s.previous[id];
      OwnRises(states[i + 1], snap, snaps[i].finishedAt, w, id, SampleGap);
      match LastSample(snap.samples, id) {
        case Some(c) =>
          InScan(snaps, i + 1, c, id);
          GapRaises(s.grid, p, c, c.timestamp, w, SampleGap, 0);
        case None =>
          GapRaises(s.grid, p, p, snap.startedAt, w, SampleGap, 0);
      }
    }
  }

  lemma GapsNonNegative(states: seq<SampleRun>, snaps: seq<Snapshot>, i: nat, w: nat)
    requires Runs(states, snaps) && i < |snaps| && 0 <= WindowGap(WindowOf(states[i], w))
    ensures WindowGap(WindowOf(states[i], w)) <= WindowGap(WindowOf(states[i + 1], w))
  {
    ScanReady(states, snaps, i);
    assert StepAt(states, snaps, i) && FollowsOn(snaps, i);
    GapGrows(states[i], snaps[i], ScannedUntil(snaps, i), w);
  }

  lemma GapGrows(r: SampleRun, snap: Snapshot, last: int, w: nat)
    requires Settled(r, last) && Bracketed(snap, last) && 0 <= WindowGap(WindowOf(r, w))
    ensures WindowGap(WindowOf(r, w)) <= WindowGap(WindowOf(Scan(r, snap), w))
  {
    if !r.s.initialized {
      var placed := r.s.(grid := if r.s.fixedOrigin then r.s.grid else r.s.grid.(origin := snap.finishedAt));
      RecordKeepsGap(placed, snap, w);
      CountKeepsGap(placed, RecordScan(placed, snap), snap.samples, w);
    } else if w < r.s.nextWindow {
      EmittedWindow(r, snap, last, w);
    } else {
      OpenWindow(r, snap, last, w);
      BookedGap(r.s, snap, w);
    }
  }

  lemma {:induction false} GapNonNegative(states: seq<SampleRun>, snaps: seq<Snapshot>, n: nat, w: nat)
    requires Runs(states, snaps) && n <= |snaps|
    ensures 0 <= WindowGap(WindowOf(states[n], w))
  {
    if n != 0 {
      GapNonNegative(states, snaps, n - 1, w);
      GapsNonNegative(states, snaps, n - 1, w);
    }
  }

  /** A scan leaves an open window's longest gap the greatest of the one before and of the gaps that it closes and
      that reach the window, over all threads. */
  lemma WindowGapIsGreatest(states: seq<SampleRun>, snaps: seq<Snapshot>, i: nat, w: nat)
    requires Runs(states, snaps) && i + 1 < |snaps| && |states[i + 1].emitted| <= w
    ensures var g, b, q := states[i + 1].s.grid, WindowGap(WindowOf(states[i + 1], w)),
                           WindowGap(WindowOf(states[i + 2], w));
      && b <= q && (forall id, gap :: GapOf(snaps, i, id, g, w, gap) ==> gap <= q)
      && (q == b || exists id :: GapOf(snaps, i, id, g, w, q))
  {
    var r, snap := states[i + 1], snaps[i + 1];
    var b, q := WindowGap(WindowOf(r, w)), WindowGap(WindowOf(states[i + 2], w));
    var current := ByIdentity(snap.samples);
    OpenGap(states, snaps, i, w);
    forall id, gap | GapOf(snaps, i, id, r.s.grid, w, gap) ensures gap <= q {
      RiseIsGap(states, snaps, i, id, w, gap);
    }
    if q != b {
      var id :| id in r.s.previous && RiseOf(r.s, id, current, snap, w) == q;
      RiseIsGap(states, snaps, i, id, w, q);
    }
  }

  lemma OpenGap(states: seq<SampleRun>, snaps: seq<Snapshot>, i: nat, w: nat)
    requires Runs(states, snaps) && i + 1 < |snaps| && |states[i + 1].emitted| <= w
    ensures var r, snap := states[i + 1], snaps[i + 1];
      && 0 <= WindowGap(WindowOf(r, w))
      && Greatest(r.s, r.s.previous.Keys, ByIdentity(snap.samples), snap, w, WindowGap(WindowOf(r, w)),
                  WindowGap(WindowOf(states[i + 2], w)))
  {
    GapNonNegative(states, snaps, i + 1, w);
    RunSettles(states, snaps, i);
    assert StepAt(states, snaps, i + 1);
    OpenWindow(states[i + 1], snaps[i + 1], snaps[i].finishedAt, w);
    BookedGap(states[i + 1].s, snaps[i + 1], w);
  }
}
