/** Events after a death: exactly when the books of a run equal its replayed timeline. */
module EventRevival {
  import opened Windows
  import opened Model
  import opened Snapshots
  import opened EventTimeline
  import opened EventLedger
  import opened EventInvariant
  import opened EventTheorems

  /** Between the end of its thread's books and itself, an event reaches an open window. */
  predicate Reopens(s: Timeline, e: Event) {
    Max(TrackOf(s, e).since, s.grid.Start(s.nextWindow)) < e.timestamp
  }

  /** An event, about to be observed, after which time is booked to a dead thread. */
  predicate Revives(s: Timeline, e: Event) {
    FateOf(s, e).Applied? && !TrackOf(s, e).alive && Reopens(s, e)
  }

  /** Adds nothing to the posthumous books. */
  ghost predicate Unchanged(r: Run, q: Run, n: nat) {
    forall w: nat, s :: Posthumous(r.s.grid, q.segs, n, w, s) == Posthumous(r.s.grid, r.segs, n, w, s)
  }

  lemma PosthumousMore(g: Grid, segs: seq<Seg>, x: Seg, n: nat, w: int, s: SchedState)
    ensures Posthumous(g, segs + [x], n, w, s) == Posthumous(g, segs, n, w, s)
            + if x.life == n && !x.alive && x.state == s then Share(g, x, w) else 0
  {
    assert (segs + [x])[..|segs|] == segs;
  }

  /** A segment has a share in some window exactly when it ends after both its start and the first open window's. */
  lemma SharesSomewhere(g: Grid, x: Seg)
    requires g.Valid() && g.origin <= x.lo && Max(x.lo, g.Start(x.floor)) < x.hi
    ensures 0 < Share(g, x, g.Index(Max(x.lo, g.Start(x.floor))))
  {
    var at := Max(x.lo, g.Start(x.floor));
    if g.Index(at) < x.floor { g.Ordered(g.Index(at), x.floor); }
  }

  lemma SharesNowhere(g: Grid, x: Seg, w: nat)
    requires g.Valid() && x.hi <= Max(x.lo, g.Start(x.floor))
    ensures Share(g, x, w) == 0
  {
    if x.floor <= w { g.Ordered(x.floor, w); }
  }

  /** One event: time is booked to a dead thread exactly when the event revives it. */
  lemma StepCondition(r: Run, e: Event)
    requires Inv(r, r.s.watermark) && FateOf(r.s, e).Applied?
    ensures Unchanged(r, RunObserve(r, e), LifeOf(r, e)) <==> !Revives(r.s, e)
  {
    var g, x, n := r.s.grid, SegOf(r, e), LifeOf(r, e);
    assert g.origin <= x.lo by { LifeBeforeOk(r, e); }
    if Revives(r.s, e) {
      var w := g.Index(Max(x.lo, g.Start(x.floor)));
      SharesSomewhere(g, x);
      PosthumousMore(g, r.segs, x, n, w, x.state);
    } else {
      forall w: nat, s ensures Posthumous(g, r.segs + [x], n, w, s) == Posthumous(g, r.segs, n, w, s) {
        PosthumousMore(g, r.segs, x, n, w, s);
        if !x.alive { SharesNowhere(g, x, w); }
      }
    }
  }

  lemma OtherLife(r: Run, e: Event, n: nat)
    requires r.s.grid.Valid() && (!FateOf(r.s, e).Applied? || LifeOf(r, e) != n)
    ensures Unchanged(r, RunObserve(r, e), n)
  {
    forall w: nat, s
      ensures Posthumous(r.s.grid, RunObserve(r, e).segs, n, w, s) == Posthumous(r.s.grid, r.segs, n, w, s)
    {
      PosthumousMore(r.s.grid, r.segs, SegOf(r, e), n, w, s);
    }
  }

  /** Cutting books living time only. */
  lemma {:induction false} CutsUnchanged(r: Run, tids: set<int>, mark: int, n: nat)
    requires Held(r) && tids <= r.s.tracks.Keys
    ensures Unchanged(r, RunCutAll(r, tids, mark), n) && RunCutAll(r, tids, mark).s.grid == r.s.grid
    ensures |RunCutAll(r, tids, mark).lives| == |r.lives|
    decreases |tids|
  {
    if tids != {} {
      var tid := Any(tids);
      CutKeeps(r.s, tid, mark);
      CutsUnchanged(RunCut(r, tid, mark), tids - {tid}, mark, n);
      OneCutUnchanged(r, tid, mark, n);
    }
  }

  lemma OneCutUnchanged(r: Run, tid: int, mark: int, n: nat)
    requires Held(r) && tid in r.s.tracks
    ensures Unchanged(r, RunCut(r, tid, mark), n)
  {
    var q := RunCut(r, tid, mark);
    if Accruing(r.s.tracks[tid], mark) {
      forall w: nat, s ensures Posthumous(r.s.grid, q.segs, n, w, s) == Posthumous(r.s.grid, r.segs, n, w, s) {
        PosthumousMore(r.s.grid, r.segs, q.segs[|r.segs|], n, w, s);
      }
    }
  }

  lemma AdvanceUnchanged(r: Run, mark: int, lost: nat, n: nat)
    requires Held(r)
    ensures var q := RunAdvance(r, mark, lost);
            Unchanged(r, q, n) && |q.lives| == |r.lives| && q.s.grid == r.s.grid
  {
    if r.s.grid.origin <= mark {
      CutsUnchanged(r.(s := Mark(r.s, mark)), r.s.tracks.Keys, mark, n);
    }
  }

  // ---------------------------------------------------------------- whole runs

  /** No event of the run about lifetime `n` revives it. */
  ghost predicate Spared(interval: int, snapshot: Snapshot, calibration: int, ops: seq<Op>, n: nat)
    requires 0 < interval
  {
    ops == [] ||
    var rest, op := ops[..|ops| - 1], ops[|ops| - 1];
    var r := Exec(interval, snapshot, calibration, rest);
    Spared(interval, snapshot, calibration, rest, n)
    && (op.Observe? && LifeOf(r, op.e) == n ==> !Revives(r.s, op.e))
  }

  /** No event of the run revives a dead thread. */
  ghost predicate AllSpared(interval: int, snapshot: Snapshot, calibration: int, ops: seq<Op>)
    requires 0 < interval
  {
    ops == [] ||
    var rest, op := ops[..|ops| - 1], ops[|ops| - 1];
    AllSpared(interval, snapshot, calibration, rest)
    && (op.Observe? ==> !Revives(Exec(interval, snapshot, calibration, rest).s, op.e))
  }

  ghost predicate NoneBooked(r: Run, n: nat) {
    forall w: nat, s :: Posthumous(r.s.grid, r.segs, n, w, s) == 0
  }

  lemma ObserveBooks(r: Run, e: Event, n: nat)
    requires Inv(r, r.s.watermark)
    ensures Unchanged(r, RunObserve(r, e), n) <==> !(LifeOf(r, e) == n && Revives(r.s, e))
  {
    if FateOf(r.s, e).Applied? && LifeOf(r, e) == n { StepCondition(r, e); } else { OtherLife(r, e, n); }
  }

  lemma ObserveOnlyAdds(r: Run, e: Event, n: nat, w: nat, s: SchedState)
    requires r.s.grid.Valid()
    ensures Posthumous(r.s.grid, r.segs, n, w, s) <= Posthumous(r.s.grid, RunObserve(r, e).segs, n, w, s)
  {
    PosthumousMore(r.s.grid, r.segs, SegOf(r, e), n, w, s);
  }

  lemma ObserveKeepsGrid(r: Run, e: Event)
    requires r.s.Valid()
    ensures RunObserve(r, e).s.grid == r.s.grid && |r.lives| <= |RunObserve(r, e).lives|
  {
    ObserveFrame(r.s, e);
  }

  lemma StepBooks(r: Run, op: Op, n: nat)
    requires Inv(r, r.s.watermark)
    ensures var q := Step(r, op);
      && q.s.grid == r.s.grid && |r.lives| <= |q.lives|
      && (Unchanged(r, q, n) <==> !(op.Observe? && LifeOf(r, op.e) == n && Revives(r.s, op.e)))
      && (forall w: nat, s :: Posthumous(r.s.grid, r.segs, n, w, s) <= Posthumous(r.s.grid, q.segs, n, w, s))
  {
    match op {
      case Observe(e) =>
        ObserveBooks(r, e, n);
        ObserveKeepsGrid(r, e);
        forall w: nat, s
          ensures Posthumous(r.s.grid, r.segs, n, w, s) <= Posthumous(r.s.grid, RunObserve(r, e).segs, n, w, s)
        {
          ObserveOnlyAdds(r, e, n, w, s);
        }
      case Advance(mark, lost) =>
        AdvanceUnchanged(r, mark, lost, n);
    }
  }

  lemma {:induction false} NoneBookedMeans(interval: int, snapshot: Snapshot, calibration: int, ops: seq<Op>, n: nat)
    requires 0 < interval
    ensures NoneBooked(Exec(interval, snapshot, calibration, ops), n) <==>
            Spared(interval, snapshot, calibration, ops, n)
  {
    if ops != [] {
      var rest, op := ops[..|ops| - 1], ops[|ops| - 1];
      var r := Exec(interval, snapshot, calibration, rest);
      NoneBookedMeans(interval, snapshot, calibration, rest, n);
      StepBooks(r, op, n);
      NoneBookedStep(r, Step(r, op), n);
    }
  }

  lemma NoneBookedStep(r: Run, q: Run, n: nat)
    requires q.s.grid == r.s.grid
    requires forall w: nat, s :: Posthumous(r.s.grid, r.segs, n, w, s) <= Posthumous(r.s.grid, q.segs, n, w, s)
    ensures NoneBooked(q, n) <==> NoneBooked(r, n) && Unchanged(r, q, n)
  {
    if NoneBooked(q, n) {
      forall w: nat, s ensures Posthumous(r.s.grid, r.segs, n, w, s) == 0 {
        assert Posthumous(q.s.grid, q.segs, n, w, s) == 0;
      }
    }
  }

  /** The books of a lifetime equal its replayed timeline, in every window and state. */
  ghost predicate Replayed(r: Run, n: nat)
    requires n < |r.lives|
  {
    forall w: nat, s :: Booked(r.s.grid, r.segs, OfLife(n), w, s) == InWindowTime(r.s.grid, r.lives[n], w, s)
  }

  lemma ReplayedMeans(r: Run, n: nat)
    requires Reachable(r) && n < |r.lives|
    ensures Replayed(r, n) <==> NoneBooked(r, n)
  {
    forall w: nat, s
      ensures Booked(r.s.grid, r.segs, OfLife(n), w, s) ==
              InWindowTime(r.s.grid, r.lives[n], w, s) + Posthumous(r.s.grid, r.segs, n, w, s)
    {
      TimelineRefinement(r, n, w, s);
    }
  }

  /** A lifetime's books equal its replayed timeline exactly when no event of the run revived it. */
  lemma LifetimeCondition(interval: int, snapshot: Snapshot, calibration: int, ops: seq<Op>, n: nat)
    requires 0 < interval && n < |Exec(interval, snapshot, calibration, ops).lives|
    ensures Replayed(Exec(interval, snapshot, calibration, ops), n) <==> Spared(interval, snapshot, calibration, ops, n)
  {
    ReplayedMeans(Exec(interval, snapshot, calibration, ops), n);
    NoneBookedMeans(interval, snapshot, calibration, ops, n);
  }

  lemma {:induction false} AllSparedOne(interval: int, snapshot: Snapshot, calibration: int, ops: seq<Op>, n: nat)
    requires 0 < interval && AllSpared(interval, snapshot, calibration, ops)
    ensures Spared(interval, snapshot, calibration, ops, n)
  {
    if ops != [] { AllSparedOne(interval, snapshot, calibration, ops[..|ops| - 1], n); }
  }

  lemma LivesGrow(r: Run, op: Op)
    requires Inv(r, r.s.watermark)
    ensures |r.lives| <= |Step(r, op).lives|
    ensures op.Observe? && Revives(r.s, op.e) ==> LifeOf(r, op.e) < |Step(r, op).lives|
  {
    StepBooks(r, op, 0);
  }

  /** A reviving event is about some lifetime of the run. */
  lemma {:induction false} SomeRevived(interval: int, snapshot: Snapshot, calibration: int, ops: seq<Op>)
    returns (n: nat)
    requires 0 < interval && !AllSpared(interval, snapshot, calibration, ops)
    ensures n < |Exec(interval, snapshot, calibration, ops).lives| && !Spared(interval, snapshot, calibration, ops, n)
  {
    var rest, op := ops[..|ops| - 1], ops[|ops| - 1];
    var r := Exec(interval, snapshot, calibration, rest);
    LivesGrow(r, op);
    if AllSpared(interval, snapshot, calibration, rest) {
      n := LifeOf(r, op.e);
    } else {
      n := SomeRevived(interval, snapshot, calibration, rest);
    }
  }

  /** The whole run: every lifetime's books equal its replayed timeline, in every emitted and pending
      window, exactly when no event was applied that revives a dead thread. */
  lemma RefinementCondition(interval: int, snapshot: Snapshot, calibration: int, ops: seq<Op>)
    requires 0 < interval
    ensures var r := Exec(interval, snapshot, calibration, ops);
            (forall n: nat :: n < |r.lives| ==> Replayed(r, n)) <==> AllSpared(interval, snapshot, calibration, ops)
  {
    if AllSpared(interval, snapshot, calibration, ops) {
      forall n: nat | n < |Exec(interval, snapshot, calibration, ops).lives|
        ensures Replayed(Exec(interval, snapshot, calibration, ops), n)
      {
        AllSparedOne(interval, snapshot, calibration, ops, n);
        LifetimeCondition(interval, snapshot, calibration, ops, n);
      }
    } else {
      var n := SomeRevived(interval, snapshot, calibration, ops);
      LifetimeCondition(interval, snapshot, calibration, ops, n);
    }
  }

  // ---------------------------------------------------------------- the failing inputs

  /** After any event that revives a dead thread, more is booked to it than its timeline holds. */
  lemma EventAfterDeath(r: Run, e: Event)
    requires Reachable(r) && Revives(r.s, e)
    ensures var q, n, t := RunObserve(r, e), LifeOf(r, e), TrackOf(r.s, e);
            var w := r.s.grid.Index(Max(t.since, r.s.grid.Start(r.s.nextWindow)));
            && n < |q.lives|
            && InWindowTime(q.s.grid, q.lives[n], w, t.state) < Booked(q.s.grid, q.segs, OfLife(n), w, t.state)
  {
    var g, q, x, n := r.s.grid, RunObserve(r, e), SegOf(r, e), LifeOf(r, e);
    var w := g.Index(Max(x.lo, g.Start(x.floor)));
    assert g.origin <= x.lo by { LifeBeforeOk(r, e); }
    SharesSomewhere(g, x);
    PosthumousMore(g, r.segs, x, n, w, x.state);
    StepReachable(r, Observe(e));
    TimelineRefinement(q, n, w, x.state);
  }

  /** Such inputs are reachable: a thread exits, the window closes, and a wakeup for it comes later. */
  const EXIT: Event := Event(105, 7, 7, 0, 0, "", SwitchOut, SchedState.Dead)
  const LATER: Event := Event(125, 7, 7, 0, 0, "", Wakeup, SchedState.Unknown)
  const EMPTY: Snapshot := Snapshot([], 100, 100, "")
  const DEAD: Track := Track(7, Identity(7, 0, 0), "", SchedState.Dead, 105, 105, 105, 0, false)

  lemma ExitTrack()
    ensures TrackAfter(100, NewTrack(100, EXIT), EXIT) == DEAD
  {
  }

  lemma AfterExit(r: Run)
    requires r.s.Valid() && r.s.grid == Grid(100, 10) && !r.s.advanced && r.s.tracks == map[]
    ensures var q := RunObserve(r, EXIT);
            q.s.(tracks := map[], windows := r.s.windows) == r.s && q.s.tracks == map[7 := DEAD]
  {
    ObserveFrame(r.s, EXIT);
    ExitTrack();
  }

  lemma DeadTrackWaits(r: Run)
    requires Held(r) && r.s.grid == Grid(100, 10) && r.s.nextWindow == 0 && r.s.watermark == 100
    requires r.s.tracks == map[7 := DEAD]
    ensures var q := RunAdvance(r, 120, 0);
            && q.s.grid == r.s.grid && q.s.nextWindow == 2 && q.s.advanced && q.s.watermark == 120
            && q.s.tracks == map[7 := DEAD]
  {
    var marked := r.(s := Mark(r.s, 120));
    assert r.s.tracks.Keys == {7} && Any({7}) == 7;
    assert {7} - {7} == {};
    assert RunCutAll(marked, {7}, 120) == marked;
  }

  lemma WakeupRevives(s: Timeline)
    requires s.grid == Grid(100, 10) && s.nextWindow == 2 && s.watermark == 120 && s.tracks == map[7 := DEAD]
    ensures FateOf(s, LATER).Applied? && !TrackOf(s, LATER).alive && Revives(s, LATER)
    ensures TrackOf(s, LATER).since < s.grid.Start(s.nextWindow) < LATER.timestamp
  {
    assert TrackOf(s, LATER) == DEAD;
  }

  lemma FirstStep(interval: int, snapshot: Snapshot, calibration: int, op: Op)
    requires 0 < interval
    ensures Exec(interval, snapshot, calibration, [op]) == Step(Exec(interval, snapshot, calibration, []), op)
  {
    ExecMore(interval, snapshot, calibration, [], op);
    assert [] + [op] == [op];
  }

  lemma SecondStep(interval: int, snapshot: Snapshot, calibration: int, first: Op, op: Op)
    requires 0 < interval
    ensures Exec(interval, snapshot, calibration, [first, op]) ==
            Step(Exec(interval, snapshot, calibration, [first]), op)
  {
    ExecMore(interval, snapshot, calibration, [first], op);
    assert [first] + [op] == [first, op];
  }

  lemma ExitRun() returns (r: Run)
    ensures r == Exec(10, EMPTY, 0, [Observe(EXIT), Advance(120, 0)])
    ensures r.s.grid == Grid(100, 10) && r.s.nextWindow == 2 && r.s.watermark == 120 && r.s.tracks == map[7 := DEAD]
  {
    var start, exit, pass := Exec(10, EMPTY, 0, []), Observe(EXIT), Advance(120, 0);
    AfterExit(start);
    var exited := Step(start, exit);
    DeadTrackWaits(exited);
    r := Step(exited, pass);
    FirstStep(10, EMPTY, 0, exit);
    SecondStep(10, EMPTY, 0, exit, pass);
  }

  lemma WakeupAfterExitRevives()
    ensures var r := Exec(10, EMPTY, 0, [Observe(EXIT), Advance(120, 0)]);
            && Reachable(r) && FateOf(r.s, LATER).Applied? && !TrackOf(r.s, LATER).alive
            && TrackOf(r.s, LATER).since < r.s.grid.Start(r.s.nextWindow) < LATER.timestamp && Revives(r.s, LATER)
  {
    var r := ExitRun();
    WakeupRevives(r.s);
  }
}
