/** Every thread of the initial scan has a lifetime, and keeps it. */
module ScannedThreads {
  import opened Windows
  import opened Model
  import opened Snapshots
  import opened EventTimeline
  import opened EventSeeds
  import opened Lifetimes
  import opened EventLedger
  import opened EventInvariant
  import opened EventTheorems
  import opened EventSchedule

  /** What a lifetime keeps for good: its birth, the state it was born in, and its thread number. */
  predicate SameOrigins(l: Life, k: Life) {
    k.born == l.born && k.seed == l.seed && k.track.id.tid == l.track.id.tid
  }

  ghost predicate KeepsLives(r: Run, q: Run) {
    |r.lives| <= |q.lives| && forall n: nat | n < |r.lives| :: SameOrigins(r.lives[n], q.lives[n])
  }

  lemma ObserveKeepsLives(r: Run, e: Event)
    requires Follows(r)
    ensures KeepsLives(r, RunObserve(r, e))
  {
    if !Ignored(e) && !Expired(r.s, e) {
      LifeAfterShape(r, e);
      if LifeOf(r, e) < |r.lives| { assert r.lives[r.holder[e.tid]].track == r.s.tracks[e.tid]; }
    }
  }

  lemma {:induction false} CutsKeepLives(r: Run, tids: set<int>, mark: int)
    requires Follows(r) && tids <= r.s.tracks.Keys
    ensures KeepsLives(r, RunCutAll(r, tids, mark))
    decreases |tids|
  {
    if tids != {} {
      var tid := Any(tids);
      CutKeeps(r.s, tid, mark);
      CutFollows(r, tid, mark);
      CutIds(r, tid, mark);
      CutsKeepLives(RunCut(r, tid, mark), tids - {tid}, mark);
      OneCutKeeps(r, tid, mark);
      KeepsOn(r, RunCut(r, tid, mark), RunCutAll(r, tids, mark));
    }
  }

  lemma OneCutKeeps(r: Run, tid: int, mark: int)
    requires Follows(r) && tid in r.s.tracks
    ensures KeepsLives(r, RunCut(r, tid, mark))
  {
    assert r.lives[r.holder[tid]].track == r.s.tracks[tid];
  }

  lemma KeepsOn(r: Run, p: Run, q: Run)
    requires KeepsLives(r, p) && KeepsLives(p, q)
    ensures KeepsLives(r, q)
  {
    forall n: nat | n < |r.lives| ensures SameOrigins(r.lives[n], q.lives[n]) {
      assert SameOrigins(r.lives[n], p.lives[n]) && SameOrigins(p.lives[n], q.lives[n]);
    }
  }

  lemma StepKeepsLives(r: Run, op: Op)
    requires Inv(r, r.s.watermark)
    ensures KeepsLives(r, Step(r, op))
  {
    match op {
      case Observe(e) => ObserveKeepsLives(r, e);
      case Advance(mark, lost) =>
        if r.s.grid.origin <= mark { CutsKeepLives(r.(s := Mark(r.s, mark)), r.s.tracks.Keys, mark); }
    }
  }

  /** Lifetime `n` is that of the scan's sample `s`. */
  predicate ScannedAs(r: Run, n: nat, s: Sample) {
    && n < |r.lives| && r.lives[n].born == r.s.grid.origin
    && r.lives[n].track.id.tid == s.id.tid && StartsAs(s.state, r.lives[n].seed)
  }

  lemma StartScanned(interval: int, snapshot: Snapshot, calibration: int, i: nat) returns (n: nat)
    requires 0 < interval && IsLast(snapshot.samples, i)
    ensures ScannedAs(Start(interval, snapshot, calibration), n, snapshot.samples[i])
  {
    var r, tid := Start(interval, snapshot, calibration), snapshot.samples[i].id.tid;
    ScanSeeds(snapshot.finishedAt, snapshot.samples);
    assert SeededBy(r.s.tracks[tid], snapshot.samples[i], r.s.grid.origin);
    n := r.holder[tid];
    assert r.lives[n] in r.lives;
  }

  /** Whatever the run does, each thread number of the initial scan has a lifetime that began at the origin, in
      the state its last sample showed. */
  lemma {:induction false} ScannedLives(interval: int, snapshot: Snapshot, calibration: int, ops: seq<Op>, i: nat)
    returns (n: nat)
    requires 0 < interval && IsLast(snapshot.samples, i)
    ensures ScannedAs(Exec(interval, snapshot, calibration, ops), n, snapshot.samples[i])
    decreases ops
  {
    if ops == [] {
      n := StartScanned(interval, snapshot, calibration, i);
    } else {
      var rest, op := ops[..|ops| - 1], ops[|ops| - 1];
      n := ScannedLives(interval, snapshot, calibration, rest, i);
      var r := Exec(interval, snapshot, calibration, rest);
      StepKeepsLives(r, op);
      assert SameOrigins(r.lives[n], Step(r, op).lives[n]);
      StepKeepsGrid(r, op);
    }
  }

  lemma StepKeepsGrid(r: Run, op: Op)
    requires Inv(r, r.s.watermark)
    ensures Step(r, op).s.grid == r.s.grid
  {
    match op {
      case Observe(e) => ObserveFrame(r.s, e);
      case Advance(mark, lost) =>
        if r.s.grid.origin <= mark { CutAllHeld(r.(s := Mark(r.s, mark)), r.s.tracks.Keys, mark); }
    }
  }

  /** ... which is charged exactly the interval in each window that ends by the time it was last carried to. */
  lemma ScannedThreadCovered(interval: int, snapshot: Snapshot, calibration: int, ops: seq<Op>, i: nat)
    returns (n: nat)
    requires 0 < interval && i < |snapshot.samples|
    ensures var r := Exec(interval, snapshot, calibration, ops);
      && n < |r.lives| && r.lives[n].born == r.s.grid.origin
      && r.lives[n].track.id.tid == snapshot.samples[i].id.tid
      && forall w: nat | r.lives[n].NothingAfterDeath() && r.s.grid.End(w) <= r.lives[n].track.since ::
           BookedInAll(r.s.grid, r.segs, OfLife(n), w) == interval
  {
    var r := Exec(interval, snapshot, calibration, ops);
    var last := LastOf(snapshot.samples, snapshot.samples[i].id.tid);
    n := ScannedLives(interval, snapshot, calibration, ops, last);
    ExecGrid(interval, snapshot, calibration, ops);
    forall w: nat | r.lives[n].NothingAfterDeath() && r.s.grid.End(w) <= r.lives[n].track.since
      ensures BookedInAll(r.s.grid, r.segs, OfLife(n), w) == interval
    {
      r.s.grid.Ordered(0, w);
      ExactCoverage(r, n, w);
    }
  }

  lemma {:induction false} ExecGrid(interval: int, snapshot: Snapshot, calibration: int, ops: seq<Op>)
    requires 0 < interval
    ensures Exec(interval, snapshot, calibration, ops).s.grid == Grid(snapshot.finishedAt, interval)
  {
    if ops != [] {
      ExecGrid(interval, snapshot, calibration, ops[..|ops| - 1]);
      StepKeepsGrid(Exec(interval, snapshot, calibration, ops[..|ops| - 1]), ops[|ops| - 1]);
    }
  }

  /** In the collector's runs, a row of each such report names the thread and totals exactly the interval. */
  lemma ScannedThreadReported(r: Run, interval: int, snapshot: Snapshot, calibration: int, ops: seq<Op>,
                              f: Conversion, i: nat, w: nat) returns (n: nat, row: Row)
    requires 0 < interval && CollectedBy(r, interval, snapshot, calibration, ops, f)
    requires i < |snapshot.samples| && w < |r.emitted|
    ensures n < |r.lives| && r.lives[n].born == r.s.grid.origin
    ensures r.lives[n].track.id.tid == snapshot.samples[i].id.tid
    ensures r.lives[n].NothingAfterDeath() && r.s.grid.End(w) <= r.lives[n].track.since ==>
              && row in r.emitted[w].threads && row.id.tid == snapshot.samples[i].id.tid
              && row.total == row.SpentInAll() == interval
  {
    n := ScannedThreadCovered(interval, snapshot, calibration, ops, i);
    row := EmptyRow(0, snapshot.samples[i].id, "", METHOD, r.s.grid, w);
    ExecGrid(interval, snapshot, calibration, ops);
    if r.lives[n].NothingAfterDeath() && r.s.grid.End(w) <= r.lives[n].track.since {
      r.s.grid.Ordered(0, w);
      row := CollectedRowCoverage(r, n, w);
    }
  }

  // ---------------------------------------------------------------- threads without events

  predicate About(op: Op, tid: int) { op.Observe? && op.e.tid == tid }

  /** No event has reached the thread's lifetime. */
  ghost predicate Quiet(r: Run, tid: int) {
    tid in r.holder && r.holder[tid] < |r.lives| && r.lives[r.holder[tid]].deeds == []
  }

  lemma {:induction false} CutsStayQuiet(r: Run, tid: int, tids: set<int>, mark: int)
    requires Follows(r) && tids <= r.s.tracks.Keys && Quiet(r, tid)
    ensures Quiet(RunCutAll(r, tids, mark), tid) && RunCutAll(r, tids, mark).holder == r.holder
    decreases |tids|
  {
    if tids != {} {
      var next := Any(tids);
      CutKeeps(r.s, next, mark);
      CutFollows(r, next, mark);
      CutsStayQuiet(RunCut(r, next, mark), tid, tids - {next}, mark);
    }
  }

  lemma ObserveStaysQuiet(r: Run, tid: int, e: Event)
    requires Follows(r) && Quiet(r, tid) && e.tid != tid
    ensures Quiet(RunObserve(r, e), tid) && RunObserve(r, e).holder[tid] == r.holder[tid]
  {
    assert r.lives[r.holder[tid]].track.id.tid == tid;
    if e.tid in r.holder { assert r.lives[r.holder[e.tid]].track.id.tid == e.tid; }
  }

  lemma StepStaysQuiet(r: Run, tid: int, op: Op)
    requires Inv(r, r.s.watermark) && Quiet(r, tid) && !About(op, tid)
    ensures Quiet(Step(r, op), tid) && Step(r, op).holder[tid] == r.holder[tid]
  {
    match op {
      case Observe(e) => ObserveStaysQuiet(r, tid, e);
      case Advance(mark, lost) =>
        if r.s.grid.origin <= mark { CutsStayQuiet(r.(s := Mark(r.s, mark)), tid, r.s.tracks.Keys, mark); }
    }
  }

  lemma StartQuiet(interval: int, snapshot: Snapshot, calibration: int, i: nat)
    requires 0 < interval && IsLast(snapshot.samples, i)
    ensures var r, tid := Start(interval, snapshot, calibration), snapshot.samples[i].id.tid;
            Quiet(r, tid) && ScannedAs(r, r.holder[tid], snapshot.samples[i])
  {
    var r, tid := Start(interval, snapshot, calibration), snapshot.samples[i].id.tid;
    ScanSeeds(snapshot.finishedAt, snapshot.samples);
    assert SeededBy(r.s.tracks[tid], snapshot.samples[i], r.s.grid.origin);
    assert r.lives[r.holder[tid]] in r.lives;
  }

  lemma {:induction false} QuietLife(interval: int, snapshot: Snapshot, calibration: int, ops: seq<Op>, i: nat)
    requires 0 < interval && IsLast(snapshot.samples, i)
    requires forall op :: op in ops ==> !About(op, snapshot.samples[i].id.tid)
    ensures var r, tid := Exec(interval, snapshot, calibration, ops), snapshot.samples[i].id.tid;
            Quiet(r, tid) && ScannedAs(r, r.holder[tid], snapshot.samples[i])
  {
    if ops == [] {
      StartQuiet(interval, snapshot, calibration, i);
    } else {
      var rest, op, tid := ops[..|ops| - 1], ops[|ops| - 1], snapshot.samples[i].id.tid;
      QuietLife(interval, snapshot, calibration, rest, i);
      var r := Exec(interval, snapshot, calibration, rest);
      StepStaysQuiet(r, tid, op);
      StepKeepsLives(r, op);
      assert SameOrigins(r.lives[r.holder[tid]], Step(r, op).lives[r.holder[tid]]);
      StepKeepsGrid(r, op);
    }
  }

  /** A thread of the initial scan that no event is about is charged, in every emitted window, exactly the
      interval in the state that its last sample showed. */
  lemma QuietThreadCharged(interval: int, snapshot: Snapshot, calibration: int, ops: seq<Op>, i: nat, w: nat)
    requires 0 < interval && IsLast(snapshot.samples, i)
    requires forall op :: op in ops ==> !About(op, snapshot.samples[i].id.tid)
    requires w < |Exec(interval, snapshot, calibration, ops).emitted|
    ensures var r, tid := Exec(interval, snapshot, calibration, ops), snapshot.samples[i].id.tid;
      && tid in r.holder && ScannedAs(r, r.holder[tid], snapshot.samples[i])
      && Booked(r.s.grid, r.segs, OfLife(r.holder[tid]), w, r.lives[r.holder[tid]].seed) == interval
  {
    var r, tid := Exec(interval, snapshot, calibration, ops), snapshot.samples[i].id.tid;
    QuietLife(interval, snapshot, calibration, ops, i);
    ExecGrid(interval, snapshot, calibration, ops);
    var n := r.holder[tid];
    r.s.grid.Ordered(0, w);
    LiveThreadLivedThrough(r, tid, w);
    TimelineRefinement(r, n, w, r.lives[n].seed);
    Steady(r.lives[n].seed, [], r.s.grid.Start(w), r.s.grid.End(w), r.lives[n].seed);
  }
}
