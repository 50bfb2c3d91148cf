/** Sampled reports show what their windows held when they closed. */
module SampleReports {
  import opened Windows
  import opened Model
  import opened RowOrder
  import opened Snapshots
  import opened SampleTimeline
  import opened SampleOrder
  import opened SampleRuns
  import opened SampleThreads
  import opened ReportSummary

  const NO_TASKSTATS := TaskstatsQuality(false, 0, 0, 0, 0, false, false)
  const NO_SCHEDSTAT := SchedstatQuality(false, 0, 0)

  /** A pending window: its rows name their thread and the window's bounds, and nothing is summed up yet. */
  ghost predicate Named(win: Window, start: int, end: int) {
    && win.quality.taskstats == NO_TASKSTATS && win.quality.schedstat == NO_SCHEDSTAT
    && forall id :: id in win.stats ==>
         win.stats[id].id == id && win.stats[id].start == start && win.stats[id].end == end
  }

  ghost predicate AllNamed(g: Grid, ws: map<int, Window>) {
    forall w :: Named(WindowAt(ws, w), g.Start(w), g.End(w))
  }

  // ---------------------------------------------------------------- booking and counting

  lemma RowNamed(g: Grid, w: int, win: Window, s: Sample)
    requires Named(win, g.Start(w), g.End(w))
    ensures var row := RowFor(g, w, win, s); row.id == s.id && row.start == g.Start(w) && row.end == g.End(w)
  {
  }

  lemma EffectNamed(what: What, lo: int, hi: int, row: Row)
    requires lo <= hi
    ensures var r := Effect(what, lo, hi, row); r.id == row.id && r.start == row.start && r.end == row.end
  {
  }

  lemma ApplyNamed(g: Grid, ws: map<int, Window>, floor: nat, v: Visit)
    requires g.Valid() && AllNamed(g, ws)
    ensures AllNamed(g, Apply(g, ws, floor, v))
  {
    forall w ensures Named(WindowAt(Apply(g, ws, floor, v), w), g.Start(w), g.End(w)) {
      ApplyAt(g, ws, floor, v, w);
      assert Named(WindowAt(ws, w), g.Start(w), g.End(w));
      if Reaches(g, floor, v, w) {
        RowNamed(g, w, WindowAt(ws, w), v.sample);
        EffectNamed(v.what, Max(v.lo, g.Start(w)), Min(v.hi, g.End(w)), RowFor(g, w, WindowAt(ws, w), v.sample));
      }
    }
  }

  lemma {:induction false} ApplyAllNamed(g: Grid, ws: map<int, Window>, floor: nat, vs: seq<Visit>)
    requires g.Valid() && AllNamed(g, ws)
    ensures AllNamed(g, ApplyAll(g, ws, floor, vs))
  {
    if vs != [] {
      ApplyAllNamed(g, ws, floor, vs[..|vs| - 1]);
      ApplyNamed(g, ApplyAll(g, ws, floor, vs[..|vs| - 1]), floor, vs[|vs| - 1]);
    }
  }

  lemma {:induction false} BookAllNamed(s: Sampler, ids: set<Identity>, current: map<Identity, Sample>, snap: Snapshot)
    requires s.grid.Valid() && ids <= s.previous.Keys && AllNamed(s.grid, s.windows)
    ensures AllNamed(s.grid, BookAll(s, ids, current, snap))
    decreases |ids|
  {
    if ids != {} {
      var id := Any(ids);
      ApplyAllNamed(s.grid, s.windows, s.nextWindow, VisitsFor(s.previous[id], current, snap));
      BookAllNamed(BookOne(s, id, current, snap), ids - {id}, current, snap);
    }
  }

  lemma ObservationNamed(g: Grid, ws: map<int, Window>, next: nat, at: nat, c: Sample)
    requires AllNamed(g, ws)
    ensures AllNamed(g, Observation(g, ws, next, at, c))
  {
    assert Named(WindowAt(ws, at), g.Start(at), g.End(at));
    RowNamed(g, at, WindowAt(ws, at), c);
    forall w ensures Named(WindowAt(Observation(g, ws, next, at, c), w), g.Start(w), g.End(w)) {
      assert Named(WindowAt(ws, w), g.Start(w), g.End(w));
    }
  }

  lemma {:induction false} CountNamed(s: Sampler, ws: map<int, Window>, samples: seq<Sample>)
    requires s.grid.Valid() && AllNamed(s.grid, ws)
    ensures AllNamed(s.grid, CountSamples(s, ws, samples))
  {
    if samples != [] {
      var rest, last := samples[..|samples| - 1], samples[|samples| - 1];
      CountNamed(s, ws, rest);
      ObservationNamed(s.grid, CountSamples(s, ws, rest), s.nextWindow, ObservationIndex(s, last.timestamp), last);
    }
  }

  lemma RecordNamed(s: Sampler, snap: Snapshot)
    requires s.grid.Valid() && AllNamed(s.grid, s.windows)
    ensures AllNamed(s.grid, RecordScan(s, snap))
  {
    forall w ensures Named(WindowAt(RecordScan(s, snap), w), s.grid.Start(w), s.grid.End(w)) {
      assert Named(WindowAt(s.windows, w), s.grid.Start(w), s.grid.End(w));
    }
  }

  lemma BookedNamed(s: Sampler, snap: Snapshot)
    requires s.grid.Valid() && AllNamed(s.grid, s.windows)
    ensures AllNamed(s.grid, Booked(s, snap).windows)
  {
    RecordNamed(s, snap);
    CountNamed(s, RecordScan(s, snap), snap.samples);
    var counted := s.(windows := CountSamples(s, RecordScan(s, snap), snap.samples));
    BookAllNamed(counted, s.previous.Keys, ByIdentity(snap.samples), snap);
  }

  lemma NoWindowsNamed(g: Grid)
    ensures AllNamed(g, map[])
  {
  }

  // ---------------------------------------------------------------- reports

  lemma {:induction false} SummaryKeeps(q: Quality, rows: seq<Row>)
    ensures Summarize(q, rows).(schedstat := q.schedstat, taskstats := q.taskstats) == q
  {
    if rows != [] { SummaryKeeps(q, rows[..|rows| - 1]); }
  }

  /** A report of a window: its bounds, its rows in order, and its quality, summed up over those rows. */
  ghost predicate Shows(k: Report, win: Window, start: int, end: int) {
    var q, p := k.quality, win.quality;
    && k.start == start && k.end == end && k.threads == Rows(TicksFirst, win.stats)
    && q.scan == p.scan && q.events == p.events && q.mismatches == p.mismatches && q.missed
    && q.samplingMethod == (if p.samplingMethod == "" then "procfs_midpoint" else p.samplingMethod)
    && q.taskstats.threads == BearingDelays(k.threads) && q.taskstats.resets == Resets(k.threads)
    && q.schedstat.threads == WithSchedstat(k.threads) && q.schedstat.resets == SchedstatResets(k.threads)
  }

  lemma ReportShows(g: Grid, ws: map<int, Window>, w: nat)
    requires Named(WindowAt(ws, w), g.Start(w), g.End(w))
    ensures Shows(ReportOf(g, ws, w), WindowAt(ws, w), g.Start(w), g.End(w))
  {
    var win := WindowAt(ws, w);
    var rows, p := Rows(TicksFirst, win.stats), win.quality;
    var q := p.(samplingMethod := if p.samplingMethod == "" then METHOD else p.samplingMethod, missed := true);
    SummaryKeeps(q, rows);
    SummaryCounts(q, rows);
    SchedstatCounts(q, rows);
  }

  /** Closed windows and their reports agree, and rows name their threads and bounds. */
  ghost predicate Published(r: SampleRun) {
    && |r.closed| == |r.emitted| && AllNamed(r.s.grid, r.s.windows)
    && forall w: nat | w < |r.emitted| :: PublishedAt(r, w)
  }

  ghost predicate PublishedAt(r: SampleRun, w: nat)
    requires w < |r.emitted| == |r.closed|
  {
    && Shows(r.emitted[w], r.closed[w], r.s.grid.Start(w), r.s.grid.End(w))
    && Named(r.closed[w], r.s.grid.Start(w), r.s.grid.End(w))
  }

  lemma PendingNamed(g: Grid, ws: map<int, Window>, next: nat, n: nat)
    requires AllNamed(g, ws)
    ensures AllNamed(g, Pending(ws, next, n))
  {
    forall w ensures Named(WindowAt(Pending(ws, next, n), w), g.Start(w), g.End(w)) {
      assert Named(WindowAt(ws, w), g.Start(w), g.End(w));
    }
  }

  /** What a later scan closes. */
  lemma EmitsAt(r: SampleRun, snap: Snapshot, last: int, w: nat)
    requires Settled(r, last) && r.s.initialized && |r.emitted| <= w < |Scan(r, snap).emitted|
    ensures Scan(r, snap).emitted[w] == ReportOf(r.s.grid, Booked(r.s, snap).windows, w)
  {
    var n := NextOpen(r.s, Watermark(r.s, snap));
    var reports := Reports(r.s.grid, Booked(r.s, snap).windows, r.s.nextWindow, n);
    assert Scan(r, snap).emitted == r.emitted + reports;
  }

  lemma ClosesAt(r: SampleRun, snap: Snapshot, last: int, w: nat)
    requires Settled(r, last) && r.s.initialized && |r.closed| <= w < |Scan(r, snap).closed|
    ensures Scan(r, snap).closed[w] == WindowAt(Booked(r.s, snap).windows, w)
  {
  }

  lemma LaterShape(r: SampleRun, snap: Snapshot, last: int)
    requires Settled(r, last) && r.s.initialized
    ensures var q, b, n := Scan(r, snap), Booked(r.s, snap), NextOpen(r.s, Watermark(r.s, snap));
      && |q.closed| == |q.emitted| && r.closed <= q.closed && r.emitted <= q.emitted && q.s.grid == r.s.grid
      && q.s.windows == Pending(b.windows, r.s.nextWindow, n)
  {
  }

  lemma LaterPublished(r: SampleRun, snap: Snapshot, last: int)
    requires Settled(r, last) && r.s.initialized && Published(r)
    ensures Published(Scan(r, snap))
  {
    var q, ws, n := Scan(r, snap), Booked(r.s, snap).windows, NextOpen(r.s, Watermark(r.s, snap));
    LaterShape(r, snap, last);
    BookedNamed(r.s, snap);
    PendingNamed(r.s.grid, ws, r.s.nextWindow, n);
    forall w: nat | w < |q.emitted| ensures PublishedAt(q, w) {
      if w < |r.emitted| {
        assert PublishedAt(r, w);
      } else {
        EmitsAt(r, snap, last, w);
        ClosesAt(r, snap, last, w);
        assert Named(WindowAt(ws, w), r.s.grid.Start(w), r.s.grid.End(w));
        ReportShows(r.s.grid, ws, w);
      }
    }
  }

  lemma FirstPublished(r: SampleRun, snap: Snapshot, last: int)
    requires Settled(r, last) && !r.s.initialized
    ensures Published(Scan(r, snap))
  {
    var placed := r.s.(grid := if r.s.fixedOrigin then r.s.grid else r.s.grid.(origin := snap.finishedAt));
    NoWindowsNamed(placed.grid);
    RecordNamed(placed, snap);
    CountNamed(placed, RecordScan(placed, snap), snap.samples);
  }

  lemma StepPublished(r: SampleRun, snap: Snapshot, q: SampleRun, last: int)
    requires Settled(r, last) && Steps(r, snap, q) && (r.s.initialized ==> Published(r))
    ensures Published(q)
  {
    if r.s.initialized { LaterPublished(r, snap, last); } else { FirstPublished(r, snap, last); }
  }

  lemma {:induction false} AllPublished(states: seq<SampleRun>, snaps: seq<Snapshot>, n: nat)
    requires Runs(states, snaps) && n < |snaps|
    ensures Published(states[n + 1])
  {
    ScanReady(states, snaps, n);
    assert StepAt(states, snaps, n);
    if n != 0 { AllPublished(states, snaps, n - 1); }
    StepPublished(states[n], snaps[n], states[n + 1], ScannedUntil(snaps, n));
  }

  /** In every run, report `w` shows window `w` of the grid as it closed, with the sums over its own rows; and
      every row of the window, emitted or pending, names its thread and the window's bounds. */
  lemma ReportsAreTheWindows(states: seq<SampleRun>, snaps: seq<Snapshot>, n: nat, w: nat)
    requires Runs(states, snaps) && n < |snaps|
    ensures var r := states[n + 1];
      && |r.closed| == |r.emitted| && Named(WindowOf(r, w), r.s.grid.Start(w), r.s.grid.End(w))
      && (w < |r.emitted| ==> Shows(r.emitted[w], WindowOf(r, w), r.s.grid.Start(w), r.s.grid.End(w)))
  {
    AllPublished(states, snaps, n);
    var r := states[n + 1];
    if w < |r.emitted| {
      assert PublishedAt(r, w);
    } else {
      assert Named(WindowAt(r.s.windows, w), r.s.grid.Start(w), r.s.grid.End(w));
    }
  }

  // ---------------------------------------------------------------- which windows close

  /** A time that holds the watermark back after scan `i + 1`: the time of a sample it took, or its start for a
      thread that only the scan before saw. */
  predicate HoldsBack(snaps: seq<Snapshot>, i: nat, id: Identity, at: int)
    requires i + 1 < |snaps|
  {
    match LastSample(snaps[i + 1].samples, id)
    case Some(c) => at == c.timestamp
    case None => LastSample(snaps[i].samples, id).Some? && at == snaps[i + 1].startedAt
  }

  lemma EndHolds(states: seq<SampleRun>, snaps: seq<Snapshot>, i: nat, id: Identity, at: int)
    requires Runs(states, snaps) && i + 1 < |snaps|
    ensures var current := ByIdentity(snaps[i + 1].samples);
            HoldsBack(snaps, i, id, at) <==>
            (id in states[i + 1].s.previous || id in current) && at == EndOf(current, snaps[i + 1], id)
  {
    ScanWaits(states, snaps, i, id);
    LastIsKept(snaps[i + 1].samples, id);
    assert FollowsOn(snaps, i + 1);
  }

  /** The watermark is the least of those times and the end of the scan, and the windows that end by it close,
      unless it precedes the origin. */
  lemma ClosesThrough(states: seq<SampleRun>, snaps: seq<Snapshot>, i: nat) returns (mark: int)
    requires Runs(states, snaps) && i + 1 < |snaps|
    ensures mark <= snaps[i + 1].finishedAt && forall id, at :: HoldsBack(snaps, i, id, at) ==> mark <= at
    ensures mark == snaps[i + 1].finishedAt || exists id :: HoldsBack(snaps, i, id, mark)
    ensures states[i + 1].s.grid.Valid()
    ensures var g, open := states[i + 1].s.grid, |states[i + 1].emitted|;
            |states[i + 2].emitted| == if mark < g.origin then open else Max(open, g.Index(mark))
  {
    var s, snap := states[i + 1].s, snaps[i + 1];
    RunSettles(states, snaps, i);
    assert StepAt(states, snaps, i + 1);
    mark := Watermark(s, snap);
    forall id, at | HoldsBack(snaps, i, id, at) ensures mark <= at {
      EndHolds(states, snaps, i, id, at);
      assert at in Ends(s, ByIdentity(snap.samples), snap);
    }
    if mark != snap.finishedAt {
      var id :| id in s.previous.Keys + ByIdentity(snap.samples).Keys
                && EndOf(ByIdentity(snap.samples), snap, id) == mark;
      EndHolds(states, snaps, i, id, mark);
    }
  }
}
