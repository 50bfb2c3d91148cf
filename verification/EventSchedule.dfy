/** The collector's own schedule: windows are closed at their boundaries, and events carry the start time
    of their thread. Then each row of a window is written by one lifetime, and each lifetime writes one. */
module EventSchedule {
  import opened Windows
  import opened Model
  import opened Snapshots
  import opened EventTimeline
  import opened Lifetimes
  import opened EventLedger
  import opened EventRows
  import opened EventInvariant
  import opened EventTheorems

  /** Start ticks of a start time in nanoseconds, or zero when they cannot be converted. */
  type Conversion = nat -> nat

  /** What the collector passes on: `Advance` at the next boundary only, and events whose identity is
      complete, consistent, and never older than the one their thread number has reached. */
  predicate Scheduled(s: Timeline, op: Op, f: Conversion) {
    match op
    case Advance(mark, _) => mark == s.grid.End(s.nextWindow)
    case Observe(e) =>
      Ignored(e) || (e.ns != 0 && e.ticks == f(e.ns) && (e.tid in s.tracks ==> s.tracks[e.tid].id.ns <= e.ns))
  }

  // ---------------------------------------------------------------- identities of lifetimes and books

  function IdOf(lives: seq<Life>, n: nat): Identity
    requires n < |lives|
  {
    lives[n].track.id
  }

  ghost predicate Converted(r: Run, f: Conversion) {
    forall n: nat | n < |r.lives| && IdOf(r.lives, n).ns != 0 && f(IdOf(r.lives, n).ns) != 0 ::
      IdOf(r.lives, n).ticks == f(IdOf(r.lives, n).ns)
  }

  /** Lifetimes of one thread number start one after the other, and the last one holds it. */
  ghost predicate Succeeding(r: Run) {
    && (forall i: nat, j: nat | i < j < |r.lives| && IdOf(r.lives, i).tid == IdOf(r.lives, j).tid ::
          IdOf(r.lives, i).ns < IdOf(r.lives, j).ns)
    && (forall i: nat | i < |r.lives| :: IdOf(r.lives, i).tid in r.holder && i <= r.holder[IdOf(r.lives, i).tid])
  }

  /** A thread known from procfs alone has had no event yet: it is alive, and cut at `at(tid)`. */
  ghost predicate Untouched(r: Run, todo: set<int>, before: int, after: int) {
    forall tid :: tid in r.s.tracks && r.s.tracks[tid].id.ns == 0 ==>
      r.s.tracks[tid].alive && r.s.tracks[tid].since == if tid in todo then before else after
  }

  /** A segment booked before its thread's first event. */
  predicate Partial(x: Seg) { x.id.ns == 0 }

  ghost predicate OnBoundary(g: Grid, at: int) { exists k: nat :: at == g.Start(k) }

  ghost predicate SegOk(r: Run, x: Seg) {
    && x.life < |r.lives| && x.id.tid == IdOf(r.lives, x.life).tid
    && (x.id == IdOf(r.lives, x.life) || (Partial(x) && IdOf(r.lives, x.life).ns != 0))
    && x.hi <= r.lives[x.life].track.since
    && (Partial(x) ==> OnBoundary(r.s.grid, x.hi))
    && (Partial(x) ==> forall i: nat | i < |r.lives| && IdOf(r.lives, i).tid == x.id.tid :: x.life <= i)
  }

  ghost predicate SegsOk(r: Run) { forall x :: x in r.segs ==> SegOk(r, x) }

  /** Two segments of one lifetime: partial ones share an identity and come first. */
  predicate PairOk(x: Seg, y: Seg) {
    x.life == y.life && Partial(x) ==> if Partial(y) then x.id == y.id else x.hi <= y.lo
  }

  ghost predicate PairsOk(segs: seq<Seg>) { forall x, y :: x in segs && y in segs ==> PairOk(x, y) }

  ghost predicate Identified(r: Run, f: Conversion, todo: set<int>, before: int, after: int) {
    Converted(r, f) && Succeeding(r) && Untouched(r, todo, before, after) && SegsOk(r) && PairsOk(r.segs)
  }

  /** Between calls every untouched thread has been cut at the start of the next window. */
  ghost predicate Settled(r: Run, f: Conversion) {
    Identified(r, f, {}, 0, r.s.grid.Start(r.s.nextWindow))
  }

  /** Holders carry the accumulator's tracks. */
  ghost predicate Follows(r: Run) {
    Held(r) && forall tid :: tid in r.holder ==> r.lives[r.holder[tid]].track == r.s.tracks[tid]
  }

  // ---------------------------------------------------------------- an event

  /** The identity an event leaves its lifetime with. */
  lemma KnownThread(r: Run, e: Event, f: Conversion)
    requires Follows(r) && Converted(r, f) && Scheduled(r.s, Observe(e), f) && !Ignored(e) && !IsNewThread(r.s, e)
    ensures var n, id := r.holder[e.tid], TrackOf(r.s, e).id;
      && LifeOf(r, e) == n < |r.lives| && id.tid == e.tid == IdOf(r.lives, n).tid && id.ns == e.ns
      && (IdOf(r.lives, n).ns != 0 ==> id == IdOf(r.lives, n)) && (f(id.ns) != 0 ==> id.ticks == f(id.ns))
  {
    assert r.lives[r.holder[e.tid]].track == r.s.tracks[e.tid];
  }

  lemma UnknownThread(r: Run, e: Event, f: Conversion, i: nat)
    requires Follows(r) && Converted(r, f) && Succeeding(r) && Scheduled(r.s, Observe(e), f)
    requires !Ignored(e) && IsNewThread(r.s, e) && i < |r.lives| && IdOf(r.lives, i).tid == e.tid
    ensures IdOf(r.lives, i).ns < e.ns
  {
    var h := r.holder[e.tid];
    assert r.lives[h].track == r.s.tracks[e.tid];
    assert i < h ==> IdOf(r.lives, i).ns < IdOf(r.lives, h).ns;
  }

  lemma TrackAfterId(origin: int, t: Track, e: Event)
    ensures TrackAfter(origin, t, e).id == t.id
  {
  }

  lemma IdAfter(r: Run, e: Event)
    requires Held(r) && !Ignored(e) && !Expired(r.s, e)
    ensures var q, n := RunObserve(r, e), LifeOf(r, e);
      && n < |q.lives| && |r.lives| <= |q.lives| <= |r.lives| + 1 && (n < |r.lives| <==> |q.lives| == |r.lives|)
      && IdOf(q.lives, n) == TrackOf(r.s, e).id
      && (forall i: nat | i < |r.lives| && i != n :: q.lives[i] == r.lives[i])
      && n <= |r.lives| && (IsNewThread(r.s, e) ==> n == |r.lives|) && TrackOf(r.s, e).id.tid == e.tid
      && q.holder == r.holder[e.tid := n]
  {
    TrackAfterId(r.s.grid.origin, TrackOf(r.s, e), e);
    assert LifeAfter(r, e).track.id == TrackOf(r.s, e).id;
  }

  lemma ConvertedAfter(r: Run, e: Event, f: Conversion)
    requires Follows(r) && Converted(r, f) && Scheduled(r.s, Observe(e), f) && !Ignored(e) && !Expired(r.s, e)
    ensures Converted(RunObserve(r, e), f)
  {
    IdAfter(r, e);
    var q, n := RunObserve(r, e), LifeOf(r, e);
    if !IsNewThread(r.s, e) { KnownThread(r, e, f); }
    forall i: nat | i < |q.lives| && IdOf(q.lives, i).ns != 0 && f(IdOf(q.lives, i).ns) != 0
      ensures IdOf(q.lives, i).ticks == f(IdOf(q.lives, i).ns)
    {
      if i != n { assert IdOf(q.lives, i) == IdOf(r.lives, i); }
    }
  }

  lemma SucceedingAfter(r: Run, e: Event, f: Conversion)
    requires Follows(r) && Converted(r, f) && Succeeding(r)
    requires Scheduled(r.s, Observe(e), f) && !Ignored(e) && !Expired(r.s, e)
    ensures Succeeding(RunObserve(r, e))
  {
    IdAfter(r, e);
    var q, n := RunObserve(r, e), LifeOf(r, e);
    if !IsNewThread(r.s, e) { KnownThread(r, e, f); }
    forall i: nat, j: nat | i < j < |q.lives| && IdOf(q.lives, i).tid == IdOf(q.lives, j).tid
      ensures IdOf(q.lives, i).ns < IdOf(q.lives, j).ns
    {
      InOrder(r, e, f, i, j);
    }
    forall i: nat | i < |q.lives| ensures IdOf(q.lives, i).tid in q.holder && i <= q.holder[IdOf(q.lives, i).tid] {
      if i != n { assert IdOf(q.lives, i) == IdOf(r.lives, i); }
    }
  }

  lemma InOrder(r: Run, e: Event, f: Conversion, i: nat, j: nat)
    requires Follows(r) && Converted(r, f) && Succeeding(r)
    requires Scheduled(r.s, Observe(e), f) && !Ignored(e) && !Expired(r.s, e)
    requires var q := RunObserve(r, e); i < j < |q.lives| && IdOf(q.lives, i).tid == IdOf(q.lives, j).tid
    ensures IdOf(RunObserve(r, e).lives, i).ns < IdOf(RunObserve(r, e).lives, j).ns
  {
    IdAfter(r, e);
    var q, n := RunObserve(r, e), LifeOf(r, e);
    if IsNewThread(r.s, e) {
      assert IdOf(q.lives, i) == IdOf(r.lives, i);
      if j == n {
        UnknownThread(r, e, f, i);
        assert TrackOf(r.s, e).id.ns == e.ns;
      } else {
        assert IdOf(q.lives, j) == IdOf(r.lives, j);
      }
    } else {
      KnownThread(r, e, f);
      assert IdOf(r.lives, i).tid == IdOf(r.lives, j).tid && IdOf(r.lives, i).ns < IdOf(r.lives, j).ns;
      assert i != n;
    }
  }

  lemma UntouchedAfter(r: Run, e: Event, f: Conversion, at: int)
    requires Follows(r) && Converted(r, f) && Untouched(r, {}, 0, at)
    requires Scheduled(r.s, Observe(e), f) && !Ignored(e) && !Expired(r.s, e)
    ensures Untouched(RunObserve(r, e), {}, 0, at)
  {
    ObserveFrame(r.s, e);
    if !IsNewThread(r.s, e) { KnownThread(r, e, f); }
    var q, t := RunObserve(r, e).s, TrackOf(r.s, e);
    TrackAfterId(r.s.grid.origin, t, e);
    forall tid | tid in q.tracks && q.tracks[tid].id.ns == 0 ensures q.tracks[tid].alive && q.tracks[tid].since == at {
      assert tid != e.tid && q.tracks[tid] == r.s.tracks[tid];
    }
  }

  lemma SinceGrows(origin: int, t: Track, e: Event)
    requires Judge(origin, t, e).Early? ==> t.since == origin
    ensures t.since <= TrackAfter(origin, t, e).since
  {
  }

  /** A lifetime only moves forward, and its identity only completes. */
  lemma LifeForward(r: Run, e: Event, f: Conversion)
    requires Shape(r, r.s.watermark) && LivesOk(r, r.s.watermark) && Follows(r) && Converted(r, f)
    requires Scheduled(r.s, Observe(e), f) && !Ignored(e) && !Expired(r.s, e) && LifeOf(r, e) < |r.lives|
    ensures var n, q := LifeOf(r, e), RunObserve(r, e);
      && r.lives[n].track.since == TrackOf(r.s, e).since <= q.lives[n].track.since
      && IdOf(q.lives, n).ns != 0 && IdOf(q.lives, n).tid == IdOf(r.lives, n).tid
      && (IdOf(r.lives, n).ns != 0 ==> IdOf(q.lives, n) == IdOf(r.lives, n))
  {
    KnownThread(r, e, f);
    IdAfter(r, e);
    assert Judge(r.s.grid.origin, TrackOf(r.s, e), e).Early? ==> TrackOf(r.s, e).since == r.s.grid.origin by {
      LifeBeforeOk(r, e);
    }
    SinceGrows(r.s.grid.origin, TrackOf(r.s, e), e);
    assert r.lives[r.holder[e.tid]].track == r.s.tracks[e.tid];
  }

  lemma SegStays(r: Run, e: Event, f: Conversion, x: Seg)
    requires Shape(r, r.s.watermark) && LivesOk(r, r.s.watermark)
    requires Follows(r) && Converted(r, f) && SegOk(r, x)
    requires Scheduled(r.s, Observe(e), f) && !Ignored(e) && !Expired(r.s, e)
    ensures SegOk(RunObserve(r, e), x)
  {
    IdAfter(r, e);
    var q, n := RunObserve(r, e), LifeOf(r, e);
    if x.life == n { LifeForward(r, e, f); }
    forall i: nat | Partial(x) && i < |q.lives| && IdOf(q.lives, i).tid == x.id.tid ensures x.life <= i {
      if i == n && n < |r.lives| { LifeForward(r, e, f); }
      if i < |r.lives| { assert IdOf(r.lives, i).tid == x.id.tid; }
    }
  }

  /** The segment of an applied event starts where its lifetime had been carried to, under a complete identity. */
  lemma NewSegOk(r: Run, e: Event, f: Conversion)
    requires Shape(r, r.s.watermark) && LivesOk(r, r.s.watermark)
    requires Follows(r) && Converted(r, f) && Scheduled(r.s, Observe(e), f) && FateOf(r.s, e).Applied?
    ensures SegOk(RunObserve(r, e), SegOf(r, e)) && !Partial(SegOf(r, e))
    ensures LifeOf(r, e) < |r.lives| ==> SegOf(r, e).lo == r.lives[LifeOf(r, e)].track.since
  {
    IdAfter(r, e);
    if LifeOf(r, e) < |r.lives| {
      LifeForward(r, e, f);
    }
    if !IsNewThread(r.s, e) { KnownThread(r, e, f); }
  }

  lemma NewSegPairs(r: Run, e: Event, f: Conversion, y: Seg)
    requires Shape(r, r.s.watermark) && LivesOk(r, r.s.watermark)
    requires Follows(r) && Converted(r, f) && Scheduled(r.s, Observe(e), f) && FateOf(r.s, e).Applied?
    requires SegOk(r, y)
    ensures PairOk(SegOf(r, e), y) && PairOk(y, SegOf(r, e))
  {
    NewSegOk(r, e, f);
  }

  lemma ObserveSettles(r: Run, e: Event, f: Conversion)
    requires Shape(r, r.s.watermark) && LivesOk(r, r.s.watermark)
    requires Follows(r) && Settled(r, f) && Scheduled(r.s, Observe(e), f)
    ensures Settled(RunObserve(r, e), f)
  {
    var q := RunObserve(r, e);
    ObserveFrame(r.s, e);
    if !Ignored(e) && !Expired(r.s, e) {
      ConvertedAfter(r, e, f);
      SucceedingAfter(r, e, f);
      UntouchedAfter(r, e, f, r.s.grid.Start(r.s.nextWindow));
      BooksAfter(r, e, f);
    } else {
      forall x | x in q.segs ensures SegOk(q, x) { assert SegOk(r, x); }
    }
  }

  lemma BooksAfter(r: Run, e: Event, f: Conversion)
    requires Shape(r, r.s.watermark) && LivesOk(r, r.s.watermark) && Follows(r) && Converted(r, f)
    requires SegsOk(r) && PairsOk(r.segs)
    requires Scheduled(r.s, Observe(e), f) && !Ignored(e) && !Expired(r.s, e)
    ensures SegsOk(RunObserve(r, e)) && PairsOk(RunObserve(r, e).segs)
  {
    var q, applied := RunObserve(r, e), FateOf(r.s, e).Applied?;
    if applied { NewSegOk(r, e, f); }
    forall x | x in q.segs ensures SegOk(q, x) {
      if x in r.segs { SegStays(r, e, f, x); }
    }
    forall x, y | x in q.segs && y in q.segs ensures PairOk(x, y) {
      if x in r.segs && y in r.segs {
        assert PairOk(x, y);
      } else if x in r.segs {
        assert SegOk(r, x);
        NewSegPairs(r, e, f, x);
      } else if y in r.segs {
        assert SegOk(r, y);
        NewSegPairs(r, e, f, y);
      }
    }
  }

  // ---------------------------------------------------------------- a boundary

  /** Cutting one track on its way to the boundary. */
  lemma CutStays(r: Run, tid: int, mark: int, x: Seg)
    requires Follows(r) && tid in r.s.tracks && SegOk(r, x)
    ensures SegOk(RunCut(r, tid, mark), x)
  {
    CutIds(r, tid, mark);
  }

  lemma CutIds(r: Run, tid: int, mark: int)
    requires Follows(r) && tid in r.s.tracks
    ensures var q := RunCut(r, tid, mark);
      && |q.lives| == |r.lives| && q.holder == r.holder && q.s.grid == r.s.grid && q.s.nextWindow == r.s.nextWindow
      && (forall i: nat | i < |r.lives| :: IdOf(q.lives, i) == IdOf(r.lives, i)) && q.s.tracks.Keys == r.s.tracks.Keys
  {
    assert r.lives[r.holder[tid]].track == r.s.tracks[tid];
  }

  lemma CutFollows(r: Run, tid: int, mark: int)
    requires Follows(r) && tid in r.s.tracks
    ensures Follows(RunCut(r, tid, mark))
  {
    CutKeeps(r.s, tid, mark);
    var q := RunCut(r, tid, mark);
    forall other | other in q.holder ensures q.lives[q.holder[other]].track == q.s.tracks[other] {
      assert r.lives[r.holder[other]].track == r.s.tracks[other];
      assert r.s.tracks[other].id.tid == other && r.s.tracks[tid].id.tid == tid;
    }
  }

  lemma CutSegOk(r: Run, tid: int, mark: int)
    requires Follows(r) && Succeeding(r) && tid in r.s.tracks && Accruing(r.s.tracks[tid], mark)
    requires mark == r.s.grid.End(r.s.nextWindow)
    ensures SegOk(RunCut(r, tid, mark), CutSeg(r, tid, mark))
  {
    CutIds(r, tid, mark);
    r.s.grid.Adjacent(r.s.nextWindow);
    var n, x := r.holder[tid], CutSeg(r, tid, mark);
    assert r.lives[n].track == r.s.tracks[tid];
    forall i: nat | Partial(x) && i < |r.lives| && IdOf(r.lives, i).tid == x.id.tid ensures n <= i {
      assert IdOf(r.lives, i).tid == IdOf(r.lives, n).tid;
    }
  }

  lemma CutSegPairs(r: Run, tid: int, mark: int, y: Seg)
    requires Follows(r) && tid in r.s.tracks && SegOk(r, y)
    ensures PairOk(CutSeg(r, tid, mark), y) && PairOk(y, CutSeg(r, tid, mark))
  {
    assert r.lives[r.holder[tid]].track == r.s.tracks[tid];
  }

  lemma CutBooks(r: Run, tid: int, mark: int)
    requires Follows(r) && Succeeding(r) && SegsOk(r) && PairsOk(r.segs)
    requires tid in r.s.tracks && mark == r.s.grid.End(r.s.nextWindow)
    ensures SegsOk(RunCut(r, tid, mark)) && PairsOk(RunCut(r, tid, mark).segs)
  {
    var q := RunCut(r, tid, mark);
    if Accruing(r.s.tracks[tid], mark) {
      var x := CutSeg(r, tid, mark);
      CutSegOk(r, tid, mark);
      assert q.segs == r.segs + [x];
      forall y | y in q.segs ensures SegOk(q, y) && PairOk(x, y) && PairOk(y, x) {
        if y in r.segs {
          CutStays(r, tid, mark, y);
          CutSegPairs(r, tid, mark, y);
        }
      }
    }
  }

  lemma CutSettles(r: Run, tid: int, tids: set<int>, mark: int, f: Conversion)
    requires Follows(r) && Identified(r, f, tids, r.s.grid.Start(r.s.nextWindow), mark)
    requires tid in tids && tids <= r.s.tracks.Keys && mark == r.s.grid.End(r.s.nextWindow)
    ensures Identified(RunCut(r, tid, mark), f, tids - {tid}, r.s.grid.Start(r.s.nextWindow), mark)
  {
    CutIds(r, tid, mark);
    CutBooks(r, tid, mark);
  }

  lemma {:induction false} CutAllSettles(r: Run, tids: set<int>, mark: int, f: Conversion)
    requires Follows(r) && Identified(r, f, tids, r.s.grid.Start(r.s.nextWindow), mark)
    requires tids <= r.s.tracks.Keys && mark == r.s.grid.End(r.s.nextWindow)
    ensures var q := RunCutAll(r, tids, mark);
            && Identified(q, f, {}, r.s.grid.Start(r.s.nextWindow), mark)
            && q.s.grid == r.s.grid && q.s.nextWindow == r.s.nextWindow
    decreases |tids|
  {
    if tids != {} {
      var tid := Any(tids);
      CutKeeps(r.s, tid, mark);
      CutIds(r, tid, mark);
      CutFollows(r, tid, mark);
      CutSettles(r, tid, tids, mark, f);
      CutAllSettles(RunCut(r, tid, mark), tids - {tid}, mark, f);
    }
  }

  /** Books, lifetimes and tracks decide; the rest of a run does not matter. */
  lemma SameBooks(r: Run, q: Run, f: Conversion, todo: set<int>, before: int, after: int)
    requires Identified(r, f, todo, before, after) && q.lives == r.lives && q.holder == r.holder && q.segs == r.segs
    requires q.s.tracks == r.s.tracks && q.s.grid == r.s.grid
    ensures Identified(q, f, todo, before, after)
  {
    forall x | x in q.segs ensures SegOk(q, x) { assert SegOk(r, x); }
  }

  lemma AdvanceSettles(r: Run, mark: int, lost: nat, f: Conversion)
    requires Follows(r) && Settled(r, f) && mark == r.s.grid.End(r.s.nextWindow)
    ensures Settled(RunAdvance(r, mark, lost), f)
  {
    var g, next, tids := r.s.grid, r.s.nextWindow, r.s.tracks.Keys;
    var marked := r.(s := Mark(r.s, mark));
    g.Ordered(0, next);
    g.Adjacent(next);
    g.IndexUnique(mark, next + 1);
    SameBooks(r, marked, f, {}, 0, g.Start(next));
    assert Untouched(marked, tids, g.Start(next), mark);
    CutAllSettles(marked, tids, mark, f);
    CutAllHeld(marked, tids, mark);
    var cut := RunCutAll(marked, tids, mark);
    SameBooks(cut, RunClose(cut, mark, lost), f, {}, g.Start(next), mark);
  }

  // ---------------------------------------------------------------- the collector's runs

  /** Every call of the run follows the collector's schedule. */
  ghost predicate AllScheduled(interval: int, snapshot: Snapshot, calibration: int, ops: seq<Op>, f: Conversion)
    requires 0 < interval
  {
    ops == [] ||
    var rest := ops[..|ops| - 1];
    AllScheduled(interval, snapshot, calibration, rest, f)
    && Scheduled(Exec(interval, snapshot, calibration, rest).s, ops[|ops| - 1], f)
  }

  /** A run of the collector, started from a procfs scan, which knows start ticks only. */
  ghost predicate Collected(r: Run) {
    exists interval, snapshot, calibration, ops, f ::
      0 < interval && CollectedBy(r, interval, snapshot, calibration, ops, f)
  }

  ghost predicate CollectedBy(r: Run, interval: int, snapshot: Snapshot, calibration: int, ops: seq<Op>, f: Conversion)
    requires 0 < interval
  {
    && (forall s :: s in snapshot.samples ==> s.id.ns == 0)
    && AllScheduled(interval, snapshot, calibration, ops, f) && r == Exec(interval, snapshot, calibration, ops)
  }

  lemma StepSettles(r: Run, op: Op, f: Conversion)
    requires Inv(r, r.s.watermark) && Settled(r, f) && Scheduled(r.s, op, f)
    ensures Settled(Step(r, op), f)
  {
    match op {
      case Observe(e) => ObserveSettles(r, e, f);
      case Advance(mark, lost) => AdvanceSettles(r, mark, lost, f);
    }
  }

  /** Lifetime `i` is the one that its thread number names. */
  predicate Holds(lives: seq<Life>, holder: map<int, nat>, i: nat)
    requires i < |lives|
  {
    IdOf(lives, i).tid in holder && holder[IdOf(lives, i).tid] == i
  }

  lemma SeedsApart(origin: int, tracks: map<int, Track>, tids: set<int>, i: nat)
    requires tids <= tracks.Keys && forall tid :: tid in tids ==> tracks[tid].id.tid == tid
    requires i < |SeedLives(origin, tracks, tids).0|
    ensures Holds(SeedLives(origin, tracks, tids).0, SeedLives(origin, tracks, tids).1, i)
  {
    SeedsNumbered(origin, tracks, tids, i);
  }

  lemma SeedsUntouched(origin: int, samples: seq<Sample>, tid: int)
    requires tid in SeedTracks(origin, samples) && forall s :: s in samples ==> s.id.ns == 0
    ensures var t := SeedTracks(origin, samples)[tid]; t.id.ns == 0 && t.alive && t.since == origin
  {
  }

  lemma StartSettles(interval: int, snapshot: Snapshot, calibration: int, f: Conversion)
    requires 0 < interval && forall s :: s in snapshot.samples ==> s.id.ns == 0
    ensures Settled(Start(interval, snapshot, calibration), f)
  {
    var r := Start(interval, snapshot, calibration);
    forall i: nat | i < |r.lives| ensures Holds(r.lives, r.holder, i) {
      SeedsApart(r.s.grid.origin, r.s.tracks, r.s.tracks.Keys, i);
    }
    forall tid | tid in r.s.tracks
      ensures r.s.tracks[tid].id.ns == 0 && r.s.tracks[tid].alive && r.s.tracks[tid].since == r.s.grid.Start(0)
    {
      SeedsUntouched(r.s.grid.origin, snapshot.samples, tid);
    }
    SeedsHeld(r);
    SeedsSettled(r, f);
  }

  lemma SeedsHeld(r: Run)
    requires (r.lives, r.holder) == SeedLives(r.s.grid.origin, r.s.tracks, r.s.tracks.Keys)
    ensures r.holder.Keys == r.s.tracks.Keys
    ensures forall l :: l in r.lives ==> exists tid :: tid in r.s.tracks && l.track == r.s.tracks[tid]
  {
  }

  lemma SeedsSettled(r: Run, f: Conversion)
    requires r.holder.Keys == r.s.tracks.Keys && r.segs == [] && r.s.nextWindow == 0
    requires forall tid :: tid in r.s.tracks ==>
      r.s.tracks[tid].id.ns == 0 && r.s.tracks[tid].alive && r.s.tracks[tid].since == r.s.grid.Start(0)
    requires forall l :: l in r.lives ==> exists tid :: tid in r.s.tracks && l.track == r.s.tracks[tid]
    requires forall i: nat | i < |r.lives| :: Holds(r.lives, r.holder, i)
    ensures Settled(r, f)
  {
    SeedsSucceed(r);
  }

  lemma SeedsSucceed(r: Run)
    requires r.holder.Keys == r.s.tracks.Keys && forall tid :: tid in r.s.tracks ==> r.s.tracks[tid].id.ns == 0
    requires forall l :: l in r.lives ==> exists tid :: tid in r.s.tracks && l.track == r.s.tracks[tid]
    requires forall i: nat | i < |r.lives| :: Holds(r.lives, r.holder, i)
    ensures Succeeding(r) && forall i: nat | i < |r.lives| :: IdOf(r.lives, i).ns == 0
  {
    forall i: nat | i < |r.lives| ensures IdOf(r.lives, i).ns == 0 && Holds(r.lives, r.holder, i) {
      assert r.lives[i] in r.lives;
    }
    forall i: nat, j: nat | i < j < |r.lives| ensures IdOf(r.lives, i).tid != IdOf(r.lives, j).tid {
      assert Holds(r.lives, r.holder, i) && Holds(r.lives, r.holder, j);
    }
    forall i: nat | i < |r.lives|
      ensures IdOf(r.lives, i).tid in r.holder && i <= r.holder[IdOf(r.lives, i).tid]
    {
      assert Holds(r.lives, r.holder, i);
    }
  }

  lemma {:induction false} RunSettles(interval: int, snapshot: Snapshot, calibration: int, ops: seq<Op>, f: Conversion)
    requires 0 < interval && (forall s :: s in snapshot.samples ==> s.id.ns == 0)
    requires AllScheduled(interval, snapshot, calibration, ops, f)
    ensures Settled(Exec(interval, snapshot, calibration, ops), f)
  {
    if ops == [] {
      StartSettles(interval, snapshot, calibration, f);
    } else {
      RunSettles(interval, snapshot, calibration, ops[..|ops| - 1], f);
      StepSettles(Exec(interval, snapshot, calibration, ops[..|ops| - 1]), ops[|ops| - 1], f);
    }
  }

  lemma SameLifeSameRow(r: Run, x: Seg, y: Seg, w: nat)
    requires r.s.grid.Valid() && SegOk(r, x) && SegOk(r, y) && PairOk(x, y) && PairOk(y, x) && x.life == y.life
    requires 0 < Share(r.s.grid, x, w) && 0 < Share(r.s.grid, y, w)
    ensures x.id == y.id
  {
    if Partial(x) && !Partial(y) { NotBoth(r.s.grid, x, y, w); }
    if Partial(y) && !Partial(x) { NotBoth(r.s.grid, y, x, w); }
  }

  lemma SameRowSameLife(r: Run, x: Seg, y: Seg)
    requires Succeeding(r) && SegOk(r, x) && SegOk(r, y) && x.id == y.id
    ensures x.life == y.life
  {
    assert IdOf(r.lives, x.life).tid == IdOf(r.lives, y.life).tid;
  }

  /** Two segments that reach one window agree on the identity exactly when they agree on the lifetime. */
  lemma OneRowEach(r: Run, f: Conversion, x: Seg, y: Seg, w: nat)
    requires r.s.grid.Valid() && Settled(r, f) && x in r.segs && y in r.segs
    requires 0 < Share(r.s.grid, x, w) && 0 < Share(r.s.grid, y, w)
    ensures x.id == y.id <==> x.life == y.life
  {
    assert SegOk(r, x) && SegOk(r, y) && PairOk(x, y) && PairOk(y, x);
    if x.life == y.life { SameLifeSameRow(r, x, y, w); }
    if x.id == y.id { SameRowSameLife(r, x, y); }
  }

  /** A partial segment ends on a boundary, so nothing later reaches a window that it reaches. */
  lemma NotBoth(g: Grid, x: Seg, y: Seg, w: nat)
    requires g.Valid() && OnBoundary(g, x.hi) && x.hi <= y.lo && 0 < Share(g, x, w)
    ensures Share(g, y, w) == 0
  {
    var k: nat :| x.hi == g.Start(k);
    g.Ordered(k, w);
    g.Ordered(w, k);
  }

  lemma CollectedIsReachable(r: Run)
    requires Collected(r)
    ensures Reachable(r)
  {
    var interval, snapshot, calibration, ops, f :|
      0 < interval && CollectedBy(r, interval, snapshot, calibration, ops, f);
  }

  lemma SoleOwned(r: Run, x: Seg, w: nat)
    requires Collected(r) && x in r.segs && 0 < Share(r.s.grid, x, w)
    ensures SoleOwner(r, w, x.id, x.life) && x.life < |r.lives| && x.id.tid == r.lives[x.life].track.id.tid
  {
    var interval, snapshot, calibration, ops, f :|
      0 < interval && CollectedBy(r, interval, snapshot, calibration, ops, f);
    RunSettles(interval, snapshot, calibration, ops, f);
    forall y | y in r.segs && 0 < Share(r.s.grid, y, w) ensures y.id == x.id <==> y.life == x.life {
      OneRowEach(r, f, y, x, w);
    }
  }

  lemma {:induction false} SomeSegment(g: Grid, segs: seq<Seg>, n: nat, w: nat, s: SchedState) returns (x: Seg)
    requires 0 < Booked(g, segs, OfLife(n), w, s)
    ensures x in segs && x.life == n && 0 < Share(g, x, w)
  {
    x := segs[|segs| - 1];
    if !(x.life == n && x.state == s && 0 < Share(g, x, w)) {
      x := SomeSegment(g, segs[..|segs| - 1], n, w, s);
    }
  }

  /** In the collector's runs, wherever a lifetime has any time in a window, one row of that window shows
      its whole replayed timeline there. */
  lemma CollectedRowShowsTimeline(r: Run, n: nat, w: nat, s: SchedState) returns (id: Identity)
    requires Collected(r) && n < |r.lives| && r.lives[n].NothingAfterDeath()
    requires 0 < InWindowTime(r.s.grid, r.lives[n], w, s)
    ensures SoleOwner(r, w, id, n)
    ensures forall t :: TimeOf(WindowOf(r, w), id, t) == InWindowTime(r.s.grid, r.lives[n], w, t)
  {
    CollectedIsReachable(r);
    TimelineRefinement(r, n, w, s);
    var x := SomeSegment(r.s.grid, r.segs, n, w, s);
    SoleOwned(r, x, w);
    id := x.id;
    forall t ensures TimeOf(WindowOf(r, w), id, t) == InWindowTime(r.s.grid, r.lives[n], w, t) {
      RowShowsTimeline(r, w, id, n, t);
    }
  }

  lemma SomeState(g: Grid, segs: seq<Seg>, n: nat, w: nat) returns (s: SchedState)
    requires 0 < BookedInAll(g, segs, OfLife(n), w)
    ensures 0 < Booked(g, segs, OfLife(n), w, s)
  {
    s := SomePositive(t => Booked(g, segs, OfLife(n), w, t));
  }

  /** In the collector's runs, every lifetime has, in each emitted window that it lived through, a row whose
      total, the sum of its durations, is exactly the interval. */
  lemma CollectedRowCoverage(r: Run, n: nat, w: nat) returns (row: Row)
    requires Collected(r) && w < |r.emitted| && LivedThrough(r, n, w)
    ensures row in r.emitted[w].threads && SoleOwner(r, w, row.id, n)
    ensures row.id.tid == r.lives[n].track.id.tid
    ensures row.total == row.SpentInAll() == r.s.grid.interval
    ensures row.sched.onCPU + row.sched.runqueue == row.Spent(Running)
  {
    CollectedIsReachable(r);
    ExactCoverage(r, n, w);
    LifeIsOk(r, n);
    var s := SomeState(r.s.grid, r.segs, n, w);
    var x := SomeSegment(r.s.grid, r.segs, n, w, s);
    SoleOwned(r, x, w);
    row := RowCoverage(r, n, w, x.id);
  }
}
