/** The promises of the event timeline, for every run. */
module EventTheorems {
  import opened Windows
  import opened Model
  import opened RowOrder
  import opened Snapshots
  import opened EventTimeline
  import opened Lifetimes
  import opened EventLedger
  import opened EventRows
  import opened EventInvariant
  import opened EventObserveStep
  import opened EventAdvanceStep

  lemma SeedLifeOk(origin: int, s: Sample)
    ensures var t := SeedTrack(origin, s);
            Life(origin, t.state, [], t).Ok(origin) && t.since == origin && t.wakeupAt == 0
  {
  }

  lemma StartLife(interval: int, snapshot: Snapshot, calibration: int, n: nat)
    requires 0 < interval && n < |Start(interval, snapshot, calibration).lives|
    ensures var r := Start(interval, snapshot, calibration); var l := r.lives[n];
            l.Ok(r.s.grid.origin) && l.track.since == r.s.grid.origin && l.track.wakeupAt == 0
  {
    var r := Start(interval, snapshot, calibration);
    assert r.lives[n] in r.lives;
    var tid :| tid in r.s.tracks && r.lives[n] == Life(r.s.grid.origin, r.s.tracks[tid].state, [], r.s.tracks[tid]);
    var s :| s in snapshot.samples && r.s.tracks[tid] == SeedTrack(r.s.grid.origin, s);
    SeedLifeOk(r.s.grid.origin, s);
  }

  lemma StartLives(interval: int, snapshot: Snapshot, calibration: int)
    requires 0 < interval
    ensures var r := Start(interval, snapshot, calibration);
            && Shape(r, r.s.watermark) && LivesOk(r, r.s.watermark)
            && forall n :: 0 <= n < |r.lives| ==>
                 r.lives[n].track.since == r.s.grid.origin && r.lives[n].track.wakeupAt == 0
  {
    var r := Start(interval, snapshot, calibration);
    forall n | 0 <= n < |r.lives|
      ensures r.lives[n].Ok(r.s.grid.origin) && r.lives[n].track.since == r.s.grid.origin
              && r.lives[n].track.wakeupAt == 0
    {
      StartLife(interval, snapshot, calibration, n);
    }
  }

  lemma StartKeeps(interval: int, snapshot: Snapshot, calibration: int)
    requires 0 < interval
    ensures var r := Start(interval, snapshot, calibration); Inv(r, r.s.watermark)
  {
    var r := Start(interval, snapshot, calibration);
    StartLives(interval, snapshot, calibration);
    StartExact(r);
    StartReconciled(r);
  }

  lemma StartExact(r: Run)
    requires r.s.grid.Valid() && r.segs == [] && r.entries == [] && LivesWell(r.lives, r.s.grid.origin)
    requires forall n :: 0 <= n < |r.lives| ==>
               r.lives[n].track.since == r.s.grid.origin && r.lives[n].track.wakeupAt == 0
    ensures Exact(r) && Covered(r)
  {
    forall n: nat, w: nat, s | n < |r.lives| ensures LifeExact(r.s.grid, r.segs, r.lives[n], n, w, s) {
      r.s.grid.Ordered(0, w);
    }
    forall n: nat | n < |r.lives| ensures LatencyCovered(r.entries, r.lives[n], n) {
    }
  }

  lemma StartReconciled(r: Run)
    requires r.closed == [] && r.s.windows == map[] && r.segs == [] && r.entries == []
    ensures Reconciled(r)
  {
    forall w: nat, id, s ensures TimeAgrees(r, w, id, s) {
    }
    forall w: nat, id, m ensures MetricAgrees(r, w, id, m) {
    }
  }

  ghost function Step(r: Run, op: Op): (q: Run)
    requires Inv(r, r.s.watermark)
    ensures Inv(q, q.s.watermark)
  {
    match op
    case Observe(e) => ObserveKeeps(r, e); RunObserve(r, e)
    case Advance(mark, lost) => AdvanceKeeps(r, mark, lost); RunAdvance(r, mark, lost)
  }

  /** Every state the accumulator can reach: any calls in any order, from any initial scan. */
  ghost function Exec(interval: int, snapshot: Snapshot, calibration: int, ops: seq<Op>): (r: Run)
    requires 0 < interval
    ensures Inv(r, r.s.watermark)
  {
    if ops == [] then StartKeeps(interval, snapshot, calibration); Start(interval, snapshot, calibration)
    else Step(Exec(interval, snapshot, calibration, ops[..|ops| - 1]), ops[|ops| - 1])
  }

  ghost predicate Reachable(r: Run) {
    exists interval, snapshot, calibration, ops :: 0 < interval && r == Exec(interval, snapshot, calibration, ops)
  }

  lemma ExecMore(interval: int, snapshot: Snapshot, calibration: int, ops: seq<Op>, op: Op)
    requires 0 < interval
    ensures Exec(interval, snapshot, calibration, ops + [op]) == Step(Exec(interval, snapshot, calibration, ops), op)
  {
    assert (ops + [op])[..|ops|] == ops;
  }

  /** What follows a reachable state is reachable. */
  lemma StepReachable(r: Run, op: Op)
    requires Reachable(r)
    ensures Reachable(Step(r, op))
  {
    var interval, snapshot, calibration, ops :|
      0 < interval && r == Exec(interval, snapshot, calibration, ops);
    ExecMore(interval, snapshot, calibration, ops, op);
  }

  // ---------------------------------------------------------------- refinement of the timeline

  /** The part of a lifetime that falls into a window. */
  function InWindowTime(g: Grid, l: Life, w: int, s: SchedState): int {
    l.Measured(Max(l.born, g.Start(w)), Min(l.track.since, g.End(w)), s)
  }

  /** Time booked to a lifetime between its death and a later event. */
  function Posthumous(g: Grid, segs: seq<Seg>, n: nat, w: int, s: SchedState): (t: int)
    ensures 0 <= t
  {
    if segs == [] then 0
    else
      var x := segs[|segs| - 1];
      Posthumous(g, segs[..|segs| - 1], n, w, s)
      + if x.life == n && !x.alive && x.state == s then Share(g, x, w) else 0
  }

  lemma {:induction false} LivingAndDead(g: Grid, segs: seq<Seg>, n: nat, w: int, s: SchedState)
    ensures Booked(g, segs, OfLife(n), w, s) == Booked(g, segs, Living(n), w, s) + Posthumous(g, segs, n, w, s)
  {
    if segs != [] { LivingAndDead(g, segs[..|segs| - 1], n, w, s); }
  }

  lemma {:induction false} NoneDead(g: Grid, segs: seq<Seg>, n: nat, w: int, s: SchedState)
    requires forall x :: x in segs && x.life == n ==> x.alive
    ensures Posthumous(g, segs, n, w, s) == 0
  {
    if segs != [] { NoneDead(g, segs[..|segs| - 1], n, w, s); }
  }

  /** Replaying a lifetime's accepted events gives the time booked to it, in every emitted and pending
      window and every state; what is booked beyond that was booked after its death. */
  lemma TimelineRefinement(r: Run, n: nat, w: nat, s: SchedState)
    requires Reachable(r) && n < |r.lives|
    ensures Booked(r.s.grid, r.segs, OfLife(n), w, s) ==
            InWindowTime(r.s.grid, r.lives[n], w, s) + Posthumous(r.s.grid, r.segs, n, w, s)
    ensures r.lives[n].NothingAfterDeath() ==>
            Booked(r.s.grid, r.segs, OfLife(n), w, s) == InWindowTime(r.s.grid, r.lives[n], w, s)
  {
    assert LifeExact(r.s.grid, r.segs, r.lives[n], n, w, s);
    LivingAndDead(r.s.grid, r.segs, n, w, s);
    if r.lives[n].NothingAfterDeath() {
      NoneDead(r.s.grid, r.segs, n, w, s);
    }
  }

  // ---------------------------------------------------------------- rows and reports

  /** Each row holds, state by state, what was booked under its identity, and its parts add up. */
  lemma RowsAreTheBooks(r: Run, w: nat, id: Identity, s: SchedState)
    requires Reachable(r)
    ensures TimeOf(WindowOf(r, w), id, s) == Booked(r.s.grid, r.segs, OfRow(id), w, s)
    ensures id in WindowOf(r, w).stats ==> Balanced(WindowOf(r, w).stats[id])
  {
    assert TimeAgrees(r, w, id, s);
    assert RowsOk(WindowOf(r, w), r.s.grid.Start(w), r.s.grid.End(w));
  }

  /** Each duration of a row is the time booked in the scheduler state of its name, with running for the time
      on a CPU and the time in a run queue, which the row also holds apart. */
  ghost predicate HoldsBooks(row: Row, books: SchedState -> int) {
    && row.Spent(ThreadState.Sleeping) == books(SchedState.Sleeping)
    && row.Spent(ThreadState.Uninterruptible) == books(SchedState.Uninterruptible)
    && row.Spent(ThreadState.Stopped) == books(SchedState.Stopped)
    && row.Spent(ThreadState.TracingStop) == books(SchedState.TracingStop)
    && row.Spent(ThreadState.Idle) == books(SchedState.Idle)
    && row.Spent(ThreadState.Dead) == books(SchedState.Dead)
    && row.Spent(ThreadState.Unknown) == books(SchedState.Unknown) && row.Spent(Zombie) == 0
    && row.sched.onCPU == books(OnCPU) && row.sched.runqueue == books(Runnable)
    && row.Spent(Running) == books(OnCPU) + books(Runnable)
  }

  lemma TimesHoldBooks(row: Row, books: SchedState -> int)
    requires Balanced(row) && forall s :: TimeIn(row, s) == books(s)
    ensures HoldsBooks(row, books)
  {
    assert TimeIn(row, SchedState.Sleeping) == books(SchedState.Sleeping);
    assert TimeIn(row, SchedState.Uninterruptible) == books(SchedState.Uninterruptible);
    assert TimeIn(row, SchedState.Stopped) == books(SchedState.Stopped);
    assert TimeIn(row, SchedState.TracingStop) == books(SchedState.TracingStop);
    assert TimeIn(row, SchedState.Idle) == books(SchedState.Idle);
    assert TimeIn(row, SchedState.Dead) == books(SchedState.Dead);
    assert TimeIn(row, SchedState.Unknown) == books(SchedState.Unknown);
    assert TimeIn(row, OnCPU) == books(OnCPU) && TimeIn(row, Runnable) == books(Runnable);
  }

  lemma RowDurations(r: Run, w: nat, id: Identity)
    requires Reachable(r) && id in WindowOf(r, w).stats
    ensures HoldsBooks(WindowOf(r, w).stats[id], s => Booked(r.s.grid, r.segs, OfRow(id), w, s))
  {
    var row := WindowOf(r, w).stats[id];
    forall s ensures TimeIn(row, s) == Booked(r.s.grid, r.segs, OfRow(id), w, s) && Balanced(row) {
      RowsAreTheBooks(r, w, id, s);
    }
    TimesHoldBooks(row, s => Booked(r.s.grid, r.segs, OfRow(id), w, s));
  }

  /** Emitted reports are consecutive, and list their window's rows in the one identity order. */
  lemma ReportsAreTheWindows(r: Run, w: nat)
    requires Reachable(r) && w < |r.emitted|
    ensures |r.emitted| == r.s.nextWindow && forall v :: v in r.s.windows ==> r.s.nextWindow <= v
    ensures Publishes(r.emitted[w], WindowOf(r, w), r.s.grid.Start(w), r.s.grid.End(w))
    ensures r.emitted[w].threads == Rows(NanosecondsFirst, WindowOf(r, w).stats)
  {
  }

  /** In window `w`, row `id` and lifetime `n` have the same books. */
  ghost predicate SoleOwner(r: Run, w: nat, id: Identity, n: nat) {
    forall x :: x in r.segs && 0 < Share(r.s.grid, x, w) ==> (x.id == id <==> x.life == n)
  }

  lemma {:induction false} SoleBooks(g: Grid, segs: seq<Seg>, w: nat, id: Identity, n: nat, s: SchedState)
    requires forall x :: x in segs && 0 < Share(g, x, w) ==> (x.id == id <==> x.life == n)
    ensures Booked(g, segs, OfRow(id), w, s) == Booked(g, segs, OfLife(n), w, s)
  {
    if segs != [] {
      assert segs[|segs| - 1] in segs;
      SoleBooks(g, segs[..|segs| - 1], w, id, n, s);
    }
  }

  /** A row written by one whole lifetime shows that lifetime's replayed timeline. */
  lemma RowShowsTimeline(r: Run, w: nat, id: Identity, n: nat, s: SchedState)
    requires Reachable(r) && n < |r.lives| && r.lives[n].NothingAfterDeath() && SoleOwner(r, w, id, n)
    ensures TimeOf(WindowOf(r, w), id, s) == InWindowTime(r.s.grid, r.lives[n], w, s)
  {
    RowsAreTheBooks(r, w, id, s);
    TimelineRefinement(r, n, w, s);
    SoleBooks(r.s.grid, r.segs, w, id, n, s);
  }

  // ---------------------------------------------------------------- coverage

  function BookedInAll(g: Grid, segs: seq<Seg>, who: Who, w: int): int {
    OverSchedStates(s => Booked(g, segs, who, w, s))
  }

  /** Lifetime `n` was there for the whole of window `w`, whatever became of it later. */
  ghost predicate LivedThrough(r: Run, n: nat, w: nat) {
    && n < |r.lives| && r.lives[n].NothingAfterDeath()
    && r.lives[n].born <= r.s.grid.Start(w) && r.s.grid.End(w) <= r.lives[n].track.since
  }

  /** Every lifetime gets exactly `interval` in each window, emitted or pending, that it lived through. */
  lemma ExactCoverage(r: Run, n: nat, w: nat)
    requires Reachable(r) && LivedThrough(r, n, w)
    ensures BookedInAll(r.s.grid, r.segs, OfLife(n), w) == r.s.grid.interval
  {
    forall s ensures Booked(r.s.grid, r.segs, OfLife(n), w, s) == InWindowTime(r.s.grid, r.lives[n], w, s) {
      TimelineRefinement(r, n, w, s);
    }
    LifeIsOk(r, n);
    WholeWindow(r.s.grid, r.segs, r.lives[n], n, w);
  }

  lemma LifeIsOk(r: Run, n: nat)
    requires Reachable(r) && n < |r.lives|
    ensures r.s.grid.Valid() && r.lives[n].Ok(r.s.grid.origin)
  {
  }

  lemma WholeWindow(g: Grid, segs: seq<Seg>, l: Life, n: nat, w: nat)
    requires g.Valid() && l.Ok(g.origin) && l.NothingAfterDeath()
    requires l.born <= g.Start(w) && g.End(w) <= l.track.since
    requires forall s :: Booked(g, segs, OfLife(n), w, s) == InWindowTime(g, l, w, s)
    ensures BookedInAll(g, segs, OfLife(n), w) == g.interval
  {
    g.Ordered(0, w);
    forall s ensures InWindowTime(g, l, w, s) == l.Measured(g.Start(w), g.End(w), s) {}
    NothingUncovered(g.origin, l, g.Start(w), g.End(w));
  }

  /** A thread that is alive now has lived through every emitted window since its birth. */
  lemma LiveThreadLivedThrough(r: Run, tid: int, w: nat)
    requires Reachable(r) && tid in r.holder && w < |r.emitted|
    requires var l := r.lives[r.holder[tid]];
             l.track.alive && l.NothingAfterDeath() && l.born <= r.s.grid.Start(w)
    ensures LivedThrough(r, r.holder[tid], w)
  {
    assert Carried(r.s, r.lives[r.holder[tid]].track, r.s.watermark);
    r.s.grid.Ordered(w, r.s.nextWindow);
  }

  /** No row ever has zombie time, so the nine scheduler states make up its total. */
  lemma RowTotal(r: Run, w: nat, id: Identity)
    requires Reachable(r) && id in WindowOf(r, w).stats
    ensures WindowOf(r, w).stats[id].total == BookedInAll(r.s.grid, r.segs, OfRow(id), w)
  {
    var row := WindowOf(r, w).stats[id];
    forall s ensures TimeIn(row, s) == Booked(r.s.grid, r.segs, OfRow(id), w, s) {
      RowsAreTheBooks(r, w, id, s);
    }
    RowsAreTheBooks(r, w, id, OnCPU);
    TotalTime(row);
  }

  lemma SoleCoverage(r: Run, n: nat, w: nat, id: Identity)
    requires Reachable(r) && LivedThrough(r, n, w) && SoleOwner(r, w, id, n)
    ensures id in WindowOf(r, w).stats
    ensures BookedInAll(r.s.grid, r.segs, OfRow(id), w) == r.s.grid.interval
  {
    ExactCoverage(r, n, w);
    forall s ensures Booked(r.s.grid, r.segs, OfRow(id), w, s) == Booked(r.s.grid, r.segs, OfLife(n), w, s) {
      SoleBooks(r.s.grid, r.segs, w, id, n, s);
    }
    if id !in WindowOf(r, w).stats {
      forall s ensures Booked(r.s.grid, r.segs, OfRow(id), w, s) == 0 {
        RowsAreTheBooks(r, w, id, s);
      }
      assert false;
    }
  }

  /** ... and so does its row in the report, when the row is its own. */
  lemma RowCoverage(r: Run, n: nat, w: nat, id: Identity) returns (row: Row)
    requires Reachable(r) && w < |r.emitted| && LivedThrough(r, n, w) && SoleOwner(r, w, id, n)
    ensures row in r.emitted[w].threads && row.id == id
    ensures row.total == row.SpentInAll() == r.s.grid.interval
    ensures row.sched.onCPU + row.sched.runqueue == row.Spent(Running)
  {
    SoleCoverage(r, n, w, id);
    RowTotal(r, w, id);
    RowsAreTheBooks(r, w, id, OnCPU);
    var win := WindowOf(r, w);
    row := win.stats[id];
    assert RowsOk(win, r.s.grid.Start(w), r.s.grid.End(w));
    RowListed(NanosecondsFirst, win.stats, id);
  }
}
