/** Wakeup latency and event counts, for every run of the event accumulator. */
module EventAccounting {
  import opened Windows
  import opened Model
  import opened RowOrder
  import opened Snapshots
  import opened EventTimeline
  import opened Lifetimes
  import opened EventLedger
  import opened EventRows
  import opened EventInvariant
  import opened EventTheorems

  // ---------------------------------------------------------------- wakeup latency

  /** A measured wakeup is still waiting in the run queue. */
  lemma PendingWakeup(r: Run, tid: int)
    requires Reachable(r) && tid in r.s.tracks && r.s.tracks[tid].wakeupAt != 0
    ensures var t := r.s.tracks[tid]; t.state == Runnable && r.s.grid.origin <= t.wakeupAt <= t.lastEvent
  {
    assert r.lives[r.holder[tid]].Ok(r.s.grid.origin);
  }

  /** Queue time booked to a lifetime in the first `m` windows. */
  function QueueTime(g: Grid, segs: seq<Seg>, n: nat, m: nat): int {
    if m == 0 then 0 else QueueTime(g, segs, n, m - 1) + Booked(g, segs, OfLife(n), m - 1, Runnable)
  }

  lemma QueueTimeMeasured(r: Run, n: nat, m: nat)
    requires Reachable(r) && n < |r.lives| && r.lives[n].NothingAfterDeath()
    ensures var l := r.lives[n];
            QueueTime(r.s.grid, r.segs, n, m) == l.Measured(l.born, Min(l.track.since, r.s.grid.Start(m)), Runnable)
  {
    StartsAtOrigin(r, n);
    forall w: nat
      ensures Booked(r.s.grid, r.segs, OfLife(n), w, Runnable) == InWindowTime(r.s.grid, r.lives[n], w, Runnable)
    {
      TimelineRefinement(r, n, w, Runnable);
    }
    WindowsAddUp(r.s.grid, r.segs, r.lives[n], n, m);
  }

  lemma {:induction false} WindowsAddUp(g: Grid, segs: seq<Seg>, l: Life, n: nat, m: nat)
    requires g.Valid() && g.origin <= l.born
    requires forall w: nat :: Booked(g, segs, OfLife(n), w, Runnable) == InWindowTime(g, l, w, Runnable)
    ensures QueueTime(g, segs, n, m) == l.Measured(l.born, Min(l.track.since, g.Start(m)), Runnable)
  {
    if m != 0 {
      WindowsAddUp(g, segs, l, n, m - 1);
      OneMoreWindow(g, l, m - 1, Runnable);
      g.Adjacent(m - 1);
    }
  }

  lemma StartsAtOrigin(r: Run, n: nat)
    requires Reachable(r) && n < |r.lives|
    ensures r.s.grid.Valid() && r.s.grid.origin <= r.lives[n].born
  {
    assert r.lives[n].Ok(r.s.grid.origin);
  }

  lemma OneMoreWindow(g: Grid, l: Life, w: nat, s: SchedState)
    requires g.Valid()
    ensures l.Measured(l.born, Min(l.track.since, g.End(w)), s) ==
            l.Measured(l.born, Min(l.track.since, g.Start(w)), s) + InWindowTime(g, l, w, s)
  {
    var at := g.Start(w);
    if l.born < at < l.track.since {
      Split(l.seed, l.deeds, l.born, at, Min(l.track.since, g.End(w)), s);
    }
  }

  /** Over a whole run, a lifetime's wakeup latency never exceeds its run-queue wait. */
  lemma LatencyIsQueueTime(r: Run, n: nat, m: nat)
    requires Reachable(r) && n < |r.lives| && r.lives[n].NothingAfterDeath()
    requires r.lives[n].track.since <= r.s.grid.Start(m)
    ensures Sum(r.entries, ByLife(n), LatencyTotal) + Waiting(r.lives[n].track) <= QueueTime(r.s.grid, r.segs, n, m)
  {
    QueueTimeMeasured(r, n, m);
    assert LatencyCovered(r.entries, r.lives[n], n);
  }

  // ---------------------------------------------------------------- event accounting

  /** Events counted as applied or late in the first `m` windows. */
  function CountedUpTo(entries: seq<Entry>, m: nat): int {
    if m == 0 then 0
    else CountedUpTo(entries, m - 1) + Sum(entries, InWindow(m - 1), Events) + Sum(entries, InWindow(m - 1), LateEvents)
  }

  function UncountedIn(entries: seq<Entry>): nat {
    if entries == [] then 0
    else UncountedIn(entries[..|entries| - 1]) + if entries[|entries| - 1].Uncounted? then 1 else 0
  }

  lemma {:induction false} CountedMore(entries: seq<Entry>, x: Entry, m: nat)
    ensures CountedUpTo(entries + [x], m) == CountedUpTo(entries, m) + if !x.Uncounted? && x.window < m then 1 else 0
  {
    if m != 0 {
      CountedMore(entries, x, m - 1);
      SumMore(entries, x, InWindow(m - 1), Events);
      SumMore(entries, x, InWindow(m - 1), LateEvents);
    }
  }

  lemma {:induction false} NothingCounted(m: nat)
    ensures CountedUpTo([], m) == 0
  {
    if m != 0 { NothingCounted(m - 1); }
  }

  lemma {:induction false} CountedOnce(entries: seq<Entry>, m: nat)
    requires forall x :: x in entries && !x.Uncounted? ==> x.window < m
    ensures CountedUpTo(entries, m) + UncountedIn(entries) == |entries|
  {
    if entries == [] {
      NothingCounted(m);
    } else {
      var rest, x := entries[..|entries| - 1], entries[|entries| - 1];
      assert entries == rest + [x];
      CountedOnce(rest, m);
      CountedMore(rest, x, m);
    }
  }

  function Observes(ops: seq<Op>): nat {
    if ops == [] then 0 else Observes(ops[..|ops| - 1]) + if ops[|ops| - 1].Observe? then 1 else 0
  }

  lemma {:induction false} CutEntries(r: Run, tids: set<int>, mark: int)
    requires Held(r) && tids <= r.s.tracks.Keys
    ensures RunCutAll(r, tids, mark).entries == r.entries
    decreases |tids|
  {
    if tids != {} {
      var tid := Any(tids);
      CutKeeps(r.s, tid, mark);
      CutEntries(RunCut(r, tid, mark), tids - {tid}, mark);
    }
  }

  lemma StepEntries(r: Run, op: Op)
    requires Inv(r, r.s.watermark)
    ensures |Step(r, op).entries| == |r.entries| + if op.Observe? then 1 else 0
  {
    match op {
      case Observe(e) =>
      case Advance(mark, lost) =>
        if r.s.grid.origin <= mark { CutEntries(r.(s := Mark(r.s, mark)), r.s.tracks.Keys, mark); }
    }
  }

  lemma {:induction false} OneEntryEach(interval: int, snapshot: Snapshot, calibration: int, ops: seq<Op>)
    requires 0 < interval
    ensures |Exec(interval, snapshot, calibration, ops).entries| == Observes(ops)
  {
    if ops != [] {
      var rest, op := ops[..|ops| - 1], ops[|ops| - 1];
      OneEntryEach(interval, snapshot, calibration, rest);
      StepEntries(Exec(interval, snapshot, calibration, rest), op);
    }
  }

  /** Every observed event is counted once: applied or late in one window, or uncounted. The windows'
      own counters are those counts, whether the window is emitted or pending. */
  lemma EveryEventOnce(interval: int, snapshot: Snapshot, calibration: int, ops: seq<Op>, m: nat)
    requires 0 < interval
    requires forall x :: x in Exec(interval, snapshot, calibration, ops).entries && !x.Uncounted? ==> x.window < m
    ensures var r := Exec(interval, snapshot, calibration, ops);
            && CountedUpTo(r.entries, m) + UncountedIn(r.entries) == Observes(ops)
            && forall w: nat :: WindowMetric(WindowOf(r, w), Events) == Sum(r.entries, InWindow(w), Events)
                             && WindowMetric(WindowOf(r, w), LateEvents) == Sum(r.entries, InWindow(w), LateEvents)
  {
    var r := Exec(interval, snapshot, calibration, ops);
    OneEntryEach(interval, snapshot, calibration, ops);
    CountedOnce(r.entries, m);
    forall w: nat
      ensures WindowMetric(WindowOf(r, w), Events) == Sum(r.entries, InWindow(w), Events)
      ensures WindowMetric(WindowOf(r, w), LateEvents) == Sum(r.entries, InWindow(w), LateEvents)
    {
      assert MetricAgrees(r, w, Identity(0, 0, 0), Events);
      assert MetricAgrees(r, w, Identity(0, 0, 0), LateEvents);
    }
  }

  /** An event goes uncounted exactly when it is malformed, or precedes its track's seed or the origin. */
  lemma UncountedMeans(r: Run, e: Event)
    requires Inv(r, r.s.watermark)
    ensures EntryOf(r, e).Uncounted? <==>
              || e.timestamp == 0 || e.tid <= 0
              || (!Expired(r.s, e) && (e.timestamp < TrackOf(r.s, e).seedAt || e.timestamp < r.s.grid.origin))
    ensures EntryOf(r, e).LateIn? <==>
              && e.timestamp != 0 && 0 < e.tid
              && (Expired(r.s, e) || (r.s.grid.origin <= e.timestamp && TrackOf(r.s, e).seedAt <= e.timestamp
                                     && e.timestamp < Max(TrackOf(r.s, e).since, TrackOf(r.s, e).lastEvent)))
  {
  }

  // ---------------------------------------------------------------- rows of a report

  function RowSum(rows: seq<Row>, m: Metric): int {
    if rows == [] then 0 else RowSum(rows[..|rows| - 1], m) + MetricIn(rows[|rows| - 1], m)
  }

  function IdSum(ids: seq<Identity>, entries: seq<Entry>, w: int, m: Metric): int {
    if ids == [] then 0 else IdSum(ids[..|ids| - 1], entries, w, m) + Sum(entries, InRow(w, ids[|ids| - 1]), m)
  }

  lemma {:induction false} IdSumMore(ids: seq<Identity>, entries: seq<Entry>, x: Entry, w: int, m: Metric)
    requires forall i, j :: 0 <= i < j < |ids| ==> ids[i] != ids[j]
    ensures IdSum(ids, entries + [x], w, m) == IdSum(ids, entries, w, m)
            + if x.Counted? && x.window == w && x.id in ids then Score(x, m) else 0
  {
    if ids != [] {
      var rest, last := ids[..|ids| - 1], ids[|ids| - 1];
      IdSumMore(rest, entries, x, w, m);
      SumMore(entries, x, InRow(w, last), m);
      assert forall id :: id in ids <==> id in rest || id == last;
    }
  }

  lemma {:induction false} IdSumNone(ids: seq<Identity>, w: int, m: Metric)
    ensures IdSum(ids, [], w, m) == 0
  {
    if ids != [] { IdSumNone(ids[..|ids| - 1], w, m); }
  }

  lemma {:induction false} RowsMakeTheWindow(ids: seq<Identity>, entries: seq<Entry>, w: int, m: Metric)
    requires m.Events? || m.Incomplete?
    requires forall i, j :: 0 <= i < j < |ids| ==> ids[i] != ids[j]
    requires forall x :: x in entries && x.Counted? && x.window == w ==> x.id in ids
    ensures IdSum(ids, entries, w, m) == Sum(entries, InWindow(w), m)
  {
    if entries == [] {
      IdSumNone(ids, w, m);
    } else {
      var rest, x := entries[..|entries| - 1], entries[|entries| - 1];
      assert entries == rest + [x];
      RowsMakeTheWindow(ids, rest, w, m);
      IdSumMore(ids, rest, x, w, m);
    }
  }

  lemma {:induction false} RowSumIsIdSum(rows: seq<Row>, ids: seq<Identity>, entries: seq<Entry>, w: int, m: Metric)
    requires |rows| == |ids|
    requires forall i :: 0 <= i < |rows| ==> MetricIn(rows[i], m) == Sum(entries, InRow(w, ids[i]), m)
    ensures RowSum(rows, m) == IdSum(ids, entries, w, m)
  {
    if rows != [] { RowSumIsIdSum(rows[..|rows| - 1], ids[..|ids| - 1], entries, w, m); }
  }

  lemma {:induction false} CountedHasRow(entries: seq<Entry>, x: Entry)
    requires x in entries && x.Counted?
    ensures 1 <= Sum(entries, InRow(x.window, x.id), Events)
  {
    if x != entries[|entries| - 1] { CountedHasRow(entries[..|entries| - 1], x); }
  }

  /** A report's event and incomplete-wakeup counts are the sums over its own rows. */
  lemma ReportCountsAddUp(r: Run, w: nat)
    requires Reachable(r) && w < |r.emitted|
    ensures var k, q := r.emitted[w], r.emitted[w].quality.events;
            && q.events == RowSum(k.threads, Events) == Sum(r.entries, InWindow(w), Events)
            && q.incomplete == RowSum(k.threads, Incomplete) == Sum(r.entries, InWindow(w), Incomplete)
            && q.late == Sum(r.entries, InWindow(w), LateEvents)
  {
    ReportSums(r, w, Events);
    ReportSums(r, w, Incomplete);
    LateSum(r, w);
    PublishedCounts(r, w);
  }

  lemma CopiedCounts(k: Report, win: Window, start: int, end: int)
    requires Publishes(k, win, start, end)
    ensures var q := k.quality.events;
            q.events == WindowMetric(win, Events) && q.incomplete == WindowMetric(win, Incomplete)
            && q.late == WindowMetric(win, LateEvents)
  {
  }

  lemma PublishedCounts(r: Run, w: nat)
    requires Reachable(r) && w < |r.emitted|
    ensures var q, win := r.emitted[w].quality.events, WindowOf(r, w);
            q.events == WindowMetric(win, Events) && q.incomplete == WindowMetric(win, Incomplete)
            && q.late == WindowMetric(win, LateEvents)
  {
    assert Publishes(r.emitted[w], WindowOf(r, w), r.s.grid.Start(w), r.s.grid.End(w)) by {
      ReportsAreTheWindows(r, w);
    }
    CopiedCounts(r.emitted[w], WindowOf(r, w), r.s.grid.Start(w), r.s.grid.End(w));
  }

  lemma LateSum(r: Run, w: nat)
    requires Reachable(r)
    ensures WindowMetric(WindowOf(r, w), LateEvents) == Sum(r.entries, InWindow(w), LateEvents)
  {
    assert MetricAgrees(r, w, Identity(0, 0, 0), LateEvents);
  }

  lemma ReportSums(r: Run, w: nat, m: Metric)
    requires Reachable(r) && w < |r.emitted| && (m.Events? || m.Incomplete?)
    ensures WindowMetric(WindowOf(r, w), m) == RowSum(r.emitted[w].threads, m) == Sum(r.entries, InWindow(w), m)
  {
    ReportsAreTheWindows(r, w);
    var stats := WindowOf(r, w).stats;
    var ids, rows := Order(NanosecondsFirst, stats.Keys), r.emitted[w].threads;
    assert MetricAgrees(r, w, Identity(0, 0, 0), m);
    forall i | 0 <= i < |rows| ensures MetricIn(rows[i], m) == Sum(r.entries, InRow(w, ids[i]), m) {
      assert ids[i] in ids;
      assert MetricAgrees(r, w, ids[i], m);
    }
    forall x | x in r.entries && x.Counted? && x.window == w ensures x.id in ids {
      CountedHasRow(r.entries, x);
      assert MetricAgrees(r, w, x.id, Events);
    }
    forall i, j | 0 <= i < j < |ids| ensures ids[i] != ids[j] {
      assert Less(NanosecondsFirst, ids[i], ids[j]);
    }
    RowsMakeTheWindow(ids, r.entries, w, m);
    RowSumIsIdSum(rows, ids, r.entries, w, m);
  }
}
