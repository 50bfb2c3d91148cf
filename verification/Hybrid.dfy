/** The hybrid loop: event windows and taskstats windows on one grid, paired as they close
    (`runHybridSchedulerEvents`, internal/collector/collector.go). */
module Hybrid {
  import opened Windows
  import opened Model
  import opened Snapshots
  import EventTimeline
  import opened EventSeeds
  import SampleTimeline
  import opened Merge
  import opened EventAccumulatorClass
  import opened AccumulatorClass

  /** `stored` keeps auxiliary reports by start time until their event report comes; the three last fields
      list every event report, auxiliary report and emitted report so far. */
  datatype Lockstep = Lockstep(ev: EventTimeline.Timeline, aux: SampleTimeline.Sampler, stored: map<int, Report>,
                               events: seq<Report>, auxiliary: seq<Report>, emitted: seq<Report>) {
    ghost predicate Valid() { ev.Valid() && aux.Valid() }
  }

  /** `storeAuxReports`. */
  function Store(stored: map<int, Report>, reports: seq<Report>): map<int, Report> {
    if reports == [] then stored
    else
      var last := reports[|reports| - 1];
      Store(stored, reports[..|reports| - 1])[last.start := last]
  }

  ghost function Pair(stored: map<int, Report>, report: Report): Report {
    if report.start in stored then MergeReports(report, stored[report.start]) else report
  }

  ghost function PairAll(stored: map<int, Report>, reports: seq<Report>): (out: seq<Report>)
    ensures |out| == |reports|
  {
    if reports == [] then []
    else
      var rest, last := reports[..|reports| - 1], reports[|reports| - 1];
      PairAll(stored, rest) + [Pair(Remaining(stored, rest), last)]
  }

  function Remaining(stored: map<int, Report>, reports: seq<Report>): map<int, Report> {
    if reports == [] then stored else Remaining(stored, reports[..|reports| - 1]) - {reports[|reports| - 1].start}
  }

  datatype Op =
    | SchedulerEvent(e: EventTimeline.Event)
    | SampleTick(snap: Snapshot)
    | Boundary(snap: Snapshot, lost: nat)

  ghost function ObserveAux(h: Lockstep, snap: Snapshot): Lockstep
    requires h.Valid()
  {
    var (aux, reports) := SampleTimeline.Observe(h.aux, snap);
    h.(aux := aux, stored := Store(h.stored, reports), auxiliary := h.auxiliary + reports)
  }

  /** Both timelines cross the next boundary; `CloseEvents` is the second half. */
  ghost function CloseEvents(h: Lockstep, lost: nat): Lockstep
    requires h.Valid()
  {
    var (ev, reports) := EventTimeline.Advance(h.ev, h.ev.grid.End(h.ev.nextWindow), lost);
    h.(ev := ev, stored := Remaining(h.stored, reports), events := h.events + reports,
       emitted := h.emitted + PairAll(h.stored, reports))
  }

  ghost function Step(h: Lockstep, op: Op): (q: Lockstep)
    requires h.Valid()
    ensures q.Valid()
  {
    match op
    case SchedulerEvent(e) => EventTimeline.ObserveFrame(h.ev, e); h.(ev := EventTimeline.Observe(h.ev, e))
    case SampleTick(snap) => AuxKeepsValid(h.aux, snap); ObserveAux(h, snap)
    case Boundary(snap, lost) =>
      AuxKeepsValid(h.aux, snap);
      EventsKeepValid(h.ev, lost);
      CloseEvents(ObserveAux(h, snap), lost)
  }

  ghost function Start(interval: int, initial: Snapshot, calibration: int, first: Snapshot): (h: Lockstep)
    requires 0 < interval
    ensures h.Valid()
  {
    var ev := EventTimeline.Initial(interval, initial, calibration);
    var aux := SampleTimeline.Sampler(ev.grid, true, false, map[], map[], 0);
    Lockstep(ev, SampleTimeline.Observe(aux, first).0, map[], [], [], [])
  }

  // ---------------------------------------------------------------- the loop itself

  class HybridLoop {
    const events: EventAccumulator
    const aux: Accumulator
    var auxReports: map<int, Report>
    ghost var closed: seq<Report>
    ghost var sampled: seq<Report>
    ghost var emitted: seq<Report>

    ghost function State(): Lockstep
      reads this, events, aux
    {
      Lockstep(events.State(), aux.State(), auxReports, closed, sampled, emitted)
    }

    ghost predicate Valid()
      reads this, events, aux
    {
      events.Valid() && aux.Valid()
    }

    /** `initial` comes from the event stream and `first` from the snapshot backend. */
    constructor (interval: int, initial: Snapshot, uncertainty: int, first: Snapshot, now: int)
      requires 0 < interval && now != 0
      ensures Valid() && fresh(events) && fresh(aux)
      ensures State() == Start(interval, Normalize(initial, now), Max(0, uncertainty), Normalize(first, now))
    {
      hide SeedsOf;
      var ev := new EventAccumulator(interval, initial, now);
      ev.SetClockCalibrationUncertainty(uncertainty);
      var acc := new Accumulator.At(interval, ev.grid.origin);
      var reports := acc.Observe(first, now);
      events, aux, auxReports := ev, acc, map[];
      closed, sampled, emitted := [], [], [];
    }

    method ObserveEvent(e: EventTimeline.Event)
      requires Valid()
      modifies events
      ensures Valid() && State() == Step(old(State()), SchedulerEvent(e))
    {
      events.Observe(e);
    }

    method ObserveAuxSnapshot(snapshot: Snapshot, now: int)
      requires Valid() && now != 0
      modifies this, aux
      ensures Valid() && State() == Step(old(State()), SampleTick(Normalize(snapshot, now)))
    {
      var reports := aux.Observe(snapshot, now);
      StoreAuxReports(reports);
      sampled := sampled + reports;
    }

    method StoreAuxReports(reports: seq<Report>)
      modifies this`auxReports
      ensures auxReports == Store(old(auxReports), reports)
    {
      for i := 0 to |reports|
        invariant auxReports == Store(old(auxReports), reports[..i])
      {
        assert reports[..i + 1][..i] == reports[..i];
        auxReports := auxReports[reports[i].start := reports[i]];
      }
      assert reports[..|reports|] == reports;
    }

    /** The timer branch, once the event channel has been flushed. */
    method CrossBoundary(snapshot: Snapshot, now: int, lost: nat) returns (reports: seq<Report>)
      requires Valid() && now != 0
      modifies this, events, aux
      ensures Valid() && State() == Step(old(State()), Boundary(Normalize(snapshot, now), lost))
      ensures emitted == old(emitted) + reports
    {
      var boundary := events.NextBoundary();
      ObserveAuxSnapshot(snapshot, now);
      var done := events.Advance(boundary, lost);
      reports := EmitAll(done);
      closed, emitted := closed + done, emitted + reports;
    }

    method EmitAll(done: seq<Report>) returns (reports: seq<Report>)
      modifies this`auxReports
      ensures reports == PairAll(old(auxReports), done) && auxReports == Remaining(old(auxReports), done)
    {
      reports := [];
      for i := 0 to |done|
        invariant reports == PairAll(old(auxReports), done[..i])
        invariant auxReports == Remaining(old(auxReports), done[..i])
      {
        assert done[..i + 1][..i] == done[..i];
        var report := done[i];
        if report.start in auxReports {
          var rows := report.threads;
          var threads := new Row[|rows|](k requires 0 <= k < |rows| => rows[k]);
          assert threads[..] == rows;
          report := MergeHybridReport(report, threads, auxReports[report.start]);
        }
        auxReports := auxReports - {done[i].start};
        reports := reports + [report];
      }
      assert done[..|done|] == done;
    }
  }

  // ---------------------------------------------------------------- lock-step

  ghost predicate OnGrid(g: Grid, reports: seq<Report>) {
    forall w :: 0 <= w < |reports| ==> reports[w].start == g.Start(w) && reports[w].end == g.End(w)
  }

  predicate StartsAmong(g: Grid, at: int, from: nat, to: nat) {
    exists w :: from <= w < to && at == g.Start(w)
  }

  /** The stored reports are those of the windows from `from` up. */
  ghost predicate StoredFrom(g: Grid, stored: map<int, Report>, auxiliary: seq<Report>, from: nat) {
    && (forall w :: from <= w < |auxiliary| ==> g.Start(w) in stored && stored[g.Start(w)] == auxiliary[w])
    && forall k :: k in stored ==> StartsAmong(g, k, from, |auxiliary|)
  }

  ghost predicate Aligned(h: Lockstep) {
    && h.Valid() && h.aux.grid == h.ev.grid && h.aux.fixedOrigin && h.aux.initialized
    && |h.events| == h.ev.nextWindow && |h.auxiliary| == h.aux.nextWindow && |h.emitted| == h.ev.nextWindow
    && OnGrid(h.ev.grid, h.events) && OnGrid(h.ev.grid, h.auxiliary)
    && StoredFrom(h.ev.grid, h.stored, h.auxiliary, h.ev.nextWindow)
  }

  ghost predicate Merged(h: Lockstep) {
    && h.ev.nextWindow <= h.aux.nextWindow && |h.events| <= |h.auxiliary| && |h.emitted| == |h.events|
    && forall w :: 0 <= w < |h.emitted| ==> h.emitted[w] == MergeReports(h.events[w], h.auxiliary[w])
  }

  ghost predicate Paired(h: Lockstep) { Aligned(h) && Merged(h) }

  lemma AuxKeepsValid(s: SampleTimeline.Sampler, snap: Snapshot)
    requires s.Valid()
    ensures var q := SampleTimeline.Observe(s, snap).0;
            && q.Valid() && q.initialized && q.fixedOrigin == s.fixedOrigin && s.nextWindow <= q.nextWindow
            && (s.initialized || s.fixedOrigin ==> q.grid == s.grid)
  {
  }

  lemma {:induction false} StoreAdds(g: Grid, stored: map<int, Report>, auxiliary: seq<Report>, from: nat,
                                     more: seq<Report>)
    requires g.Valid() && StoredFrom(g, stored, auxiliary, from) && from <= |auxiliary|
    requires OnGrid(g, auxiliary + more)
    ensures StoredFrom(g, Store(stored, more), auxiliary + more, from)
  {
    if more == [] {
      assert auxiliary + more == auxiliary;
    } else {
      var rest, last := more[..|more| - 1], more[|more| - 1];
      assert auxiliary + more == (auxiliary + rest) + [last];
      assert OnGrid(g, auxiliary + rest) by {
        forall w | 0 <= w < |auxiliary + rest|
          ensures (auxiliary + rest)[w].start == g.Start(w) && (auxiliary + rest)[w].end == g.End(w)
        {
          assert (auxiliary + rest)[w] == (auxiliary + more)[w];
        }
      }
      StoreAdds(g, stored, auxiliary, from, rest);
      assert (auxiliary + more)[|auxiliary + rest|] == last;
      StoreOne(g, Store(stored, rest), auxiliary + rest, from, last);
    }
  }

  lemma StoreOne(g: Grid, stored: map<int, Report>, auxiliary: seq<Report>, from: nat, last: Report)
    requires g.Valid() && StoredFrom(g, stored, auxiliary, from) && from <= |auxiliary|
    requires last.start == g.Start(|auxiliary|)
    ensures StoredFrom(g, stored[last.start := last], auxiliary + [last], from)
  {
    var n := |auxiliary|;
    forall w | from <= w < n ensures g.Start(w) != last.start { g.Ordered(w, n); }
    var updated := stored[last.start := last];
    forall k | k in updated ensures StartsAmong(g, k, from, n + 1) {
      if k != last.start { assert StartsAmong(g, k, from, n); }
    }
  }

  lemma ReportsOnGrid(g: Grid, ws: map<int, Window>, next: nat, n: nat, before: seq<Report>)
    requires next <= n && |before| == next && OnGrid(g, before)
    ensures OnGrid(g, before + SampleTimeline.Reports(g, ws, next, n))
  {
    var reports := SampleTimeline.Reports(g, ws, next, n);
    forall i | 0 <= i < |reports| ensures reports[i].start == g.Start(next + i) && reports[i].end == g.End(next + i) {
      assert reports[i] == SampleTimeline.ReportOf(g, ws, next + i);
    }
  }

  lemma ScanKeeps(h: Lockstep, snap: Snapshot)
    requires Paired(h)
    ensures Paired(ObserveAux(h, snap))
  {
    var (aux, reports) := SampleTimeline.Observe(h.aux, snap);
    AuxKeepsValid(h.aux, snap);
    var windows := SampleTimeline.Booked(h.aux, snap).windows;
    assert reports == SampleTimeline.Reports(h.aux.grid, windows, h.aux.nextWindow, aux.nextWindow);
    ReportsOnGrid(h.ev.grid, windows, h.aux.nextWindow, aux.nextWindow, h.auxiliary);
    StoreAdds(h.ev.grid, h.stored, h.auxiliary, h.ev.nextWindow, reports);
  }

  /** A scan that starts at or after an instant lets windows close through it. */
  lemma ScanReaches(s: SampleTimeline.Sampler, snap: Snapshot, boundary: int)
    requires s.Valid() && Timely(snap, boundary)
    ensures boundary <= SampleTimeline.Watermark(s, snap)
  {
  }

  /** A scan that starts at or after an instant, with its sample times inside its bracket. */
  predicate Timely(snap: Snapshot, boundary: int) {
    && snap.startedAt != 0 && boundary <= snap.startedAt <= snap.finishedAt
    && forall x :: x in snap.samples ==> x.timestamp != 0 && snap.startedAt <= x.timestamp
  }

  /** The event accumulator closes exactly one window at its own boundary. */
  lemma ClosesOne(s: EventTimeline.Timeline, lost: nat)
    requires s.Valid()
    ensures var (q, reports) := EventTimeline.Advance(s, s.grid.End(s.nextWindow), lost);
            && q.grid == s.grid && q.nextWindow == s.nextWindow + 1 && |reports| == 1
            && reports[0].start == s.grid.Start(s.nextWindow) && reports[0].end == s.grid.End(s.nextWindow)
  {
    var g, n, mark := s.grid, s.nextWindow, s.grid.End(s.nextWindow);
    g.Ordered(0, n);
    g.IndexUnique(mark, n + 1);
    var cut := EventTimeline.CutAll(EventTimeline.Mark(s, mark), s.tracks.Keys, mark);
    assert EventTimeline.Reports(cut, n + 1, lost)[0] == EventTimeline.ReportOf(cut, n + 0, lost);
  }

  lemma EventsKeepValid(s: EventTimeline.Timeline, lost: nat)
    requires s.Valid()
    ensures EventTimeline.Advance(s, s.grid.End(s.nextWindow), lost).0.Valid()
  {
    EventTimeline.AdvanceRaisesWatermark(s, s.grid.End(s.nextWindow), lost);
  }

  /** The auxiliary side has closed the window that the event side closes next. */
  predicate Ready(h: Lockstep) { h.ev.nextWindow < h.aux.nextWindow }

  lemma CloseStored(g: Grid, stored: map<int, Report>, auxiliary: seq<Report>, n: nat)
    requires g.Valid() && StoredFrom(g, stored, auxiliary, n) && n < |auxiliary|
    ensures StoredFrom(g, stored - {g.Start(n)}, auxiliary, n + 1)
  {
    var left := stored - {g.Start(n)};
    forall w | n + 1 <= w < |auxiliary| ensures g.Start(w) in left && left[g.Start(w)] == auxiliary[w] {
      g.Ordered(n, w);
    }
    forall k | k in left ensures StartsAmong(g, k, n + 1, |auxiliary|) {
      assert StartsAmong(g, k, n, |auxiliary|);
    }
  }

  lemma CloseKeeps(h: Lockstep, lost: nat)
    requires Paired(h) && Ready(h)
    ensures Paired(CloseEvents(h, lost))
    ensures var q, n := CloseEvents(h, lost), h.ev.nextWindow;
            && |q.events| == n + 1 && |q.emitted| == n + 1 && n < |q.auxiliary|
            && q.emitted[n] == MergeReports(q.events[n], q.auxiliary[n])
            && SameBounds(q.events[n], q.auxiliary[n])
  {
    var g, n := h.ev.grid, h.ev.nextWindow;
    var (ev, reports) := EventTimeline.Advance(h.ev, g.End(n), lost);
    ClosesOne(h.ev, lost);
    EventsKeepValid(h.ev, lost);
    assert reports == [reports[0]] && reports[..0] == [];
    assert Remaining(h.stored, reports) == h.stored - {g.Start(n)};
    assert PairAll(h.stored, reports) == [Pair(h.stored, reports[0])];
    CloseStored(g, h.stored, h.auxiliary, n);
  }

  lemma AuxNextWindow(s: SampleTimeline.Sampler, snap: Snapshot, n: nat)
    requires s.Valid() && s.initialized
    ensures n < SampleTimeline.Observe(s, snap).0.nextWindow <==>
            n < s.nextWindow || s.grid.End(n) <= SampleTimeline.Watermark(s, snap)
  {
    var g, mark := s.grid, SampleTimeline.Watermark(s, snap);
    g.Ordered(0, n);
    if g.origin <= mark {
      g.Ordered(n, g.Index(mark));
      g.Ordered(g.Index(mark), n);
    }
  }

  /** An event report meets the auxiliary report of its window exactly when every thread of the boundary
      scan, seen or missing, was looked at no earlier than the boundary, or that window had closed before. */
  lemma MergedExactlyWhen(h: Lockstep, snap: Snapshot)
    requires Paired(h)
    ensures var n := h.ev.nextWindow;
            h.ev.grid.Start(n) in ObserveAux(h, snap).stored <==>
            n < h.aux.nextWindow || h.ev.grid.End(n) <= SampleTimeline.Watermark(h.aux, snap)
  {
    var g, n, q := h.ev.grid, h.ev.nextWindow, ObserveAux(h, snap);
    AuxNextWindow(h.aux, snap, n);
    ScanKeeps(h, snap);
    if g.Start(n) in q.stored {
      assert StartsAmong(g, g.Start(n), n, |q.auxiliary|);
    }
  }

  predicate InTime(h: Lockstep, op: Op) {
    op.Boundary? ==> Timely(op.snap, h.ev.grid.End(h.ev.nextWindow))
  }

  lemma EventKeepsPaired(h: Lockstep, e: EventTimeline.Event)
    requires Paired(h)
    ensures Paired(Step(h, SchedulerEvent(e)))
  {
    EventTimeline.ObserveFrame(h.ev, e);
  }

  /** A scan that starts at or after the boundary closes the window in question on the auxiliary side. */
  lemma BoundaryIsReady(h: Lockstep, snap: Snapshot)
    requires Paired(h) && Timely(snap, h.ev.grid.End(h.ev.nextWindow))
    ensures Paired(ObserveAux(h, snap)) && Ready(ObserveAux(h, snap))
  {
    ScanKeeps(h, snap);
    ScanReaches(h.aux, snap, h.ev.grid.End(h.ev.nextWindow));
    AuxNextWindow(h.aux, snap, h.ev.nextWindow);
  }

  lemma BoundaryKeepsPaired(h: Lockstep, snap: Snapshot, lost: nat)
    requires Paired(h) && Timely(snap, h.ev.grid.End(h.ev.nextWindow))
    ensures var q := Step(h, Boundary(snap, lost)); Paired(q) && |q.emitted| == |h.emitted| + 1
  {
    BoundaryIsReady(h, snap);
    CloseKeeps(ObserveAux(h, snap), lost);
  }

  /** One step keeps the pairing: stored auxiliary reports are exactly those from the event side's next
      window up to the auxiliary side's, and each emitted report was merged with its own window's. */
  lemma StepKeepsPaired(h: Lockstep, op: Op)
    requires Paired(h) && InTime(h, op)
    ensures Paired(Step(h, op))
    ensures op.Boundary? ==> |Step(h, op).emitted| == |h.emitted| + 1
  {
    match op {
      case SchedulerEvent(e) => EventKeepsPaired(h, e);
      case SampleTick(snap) => ScanKeeps(h, snap);
      case Boundary(snap, lost) => BoundaryKeepsPaired(h, snap, lost);
    }
  }

  ghost function Exec(start: Lockstep, ops: seq<Op>): (h: Lockstep)
    requires start.Valid()
    ensures h.Valid()
  {
    if ops == [] then start
    else Step(Exec(start, ops[..|ops| - 1]), ops[|ops| - 1])
  }

  /** Every boundary scan starts at or after its boundary. */
  ghost predicate AllInTime(start: Lockstep, ops: seq<Op>)
    requires start.Valid()
  {
    ops == [] || (var rest := ops[..|ops| - 1]; AllInTime(start, rest) && InTime(Exec(start, rest), ops[|ops| - 1]))
  }

  lemma StartPaired(interval: int, initial: Snapshot, calibration: int, first: Snapshot)
    requires 0 < interval
    ensures Paired(Start(interval, initial, calibration, first))
  {
  }

  /** The pairing holds after any run of events, sample ticks and boundaries. */
  lemma {:induction false} AlwaysPaired(interval: int, initial: Snapshot, calibration: int, first: Snapshot,
                                        ops: seq<Op>)
    requires 0 < interval
    requires AllInTime(Start(interval, initial, calibration, first), ops)
    ensures Paired(Exec(Start(interval, initial, calibration, first), ops))
  {
    var start := Start(interval, initial, calibration, first);
    StartPaired(interval, initial, calibration, first);
    if ops != [] {
      AlwaysPaired(interval, initial, calibration, first, ops[..|ops| - 1]);
      StepKeepsPaired(Exec(start, ops[..|ops| - 1]), ops[|ops| - 1]);
    }
  }
}
