/** `Advance` keeps the invariant, and closes windows as they are. */
module EventAdvanceStep {
  import opened Windows
  import opened Model
  import opened EventTimeline
  import opened Lifetimes
  import opened EventLedger
  import opened EventRows
  import opened EventInvariant
  import opened EventObserveStep

  lemma CutFrame(s: Timeline, tid: int, mark: int)
    requires s.Valid() && tid in s.tracks && Accruing(s.tracks[tid], mark)
    ensures var q := Cut(s, tid, mark);
            && q.Valid() && q.(tracks := s.tracks, windows := s.windows) == s
            && q.tracks == s.tracks[tid := s.tracks[tid].(since := mark)]
  {
  }

  lemma CutShape(r: Run, tid: int, mark: int, low: int)
    requires Shape(r, low) && tid in r.s.tracks && Accruing(r.s.tracks[tid], mark)
    ensures Shape(RunCut(r, tid, mark), low)
  {
    var t := r.s.tracks[tid];
    CutFrame(r.s, tid, mark);
    BookOpen(r.s.grid, r.s.windows, r.s.nextWindow, t, t.since, mark);
  }

  /** Waiting for the watermark keeps a live lifetime well formed. */
  lemma CutLife(origin: int, l: Life, mark: int)
    requires l.Ok(origin) && l.track.alive && l.track.since <= mark
    ensures l.(track := l.track.(since := mark)).Ok(origin)
  {
    Settled(l.seed, l.deeds, l.track.since, mark);
    var k := l.(track := l.track.(since := mark));
    assert k.At(mark) == k.Final();
  }

  lemma CutLivesWell(r: Run, tid: int, mark: int, low: int)
    requires Held(r) && LivesOk(r, low) && tid in r.s.tracks && Accruing(r.s.tracks[tid], mark)
    ensures LivesWell(RunCut(r, tid, mark).lives, r.s.grid.origin)
  {
    var q, n := RunCut(r, tid, mark), r.holder[tid];
    CutLife(r.s.grid.origin, r.lives[n], mark);
    assert q.lives[n] == r.lives[n].(track := r.lives[n].track.(since := mark));
  }

  lemma CutHolders(r: Run, tid: int, mark: int, low: int)
    requires Shape(r, low) && HoldersOk(r, low) && r.s.advanced
    requires tid in r.s.tracks && Accruing(r.s.tracks[tid], mark)
    ensures Held(RunCut(r, tid, mark)) && HoldersOk(RunCut(r, tid, mark), low)
  {
    CutFrame(r.s, tid, mark);
    var q := RunCut(r, tid, mark);
    forall other | other in q.holder
      ensures q.lives[q.holder[other]].track == q.s.tracks[other] && Carried(q.s, q.s.tracks[other], low)
    {
      if other != tid {
        assert r.lives[r.holder[other]].track.id.tid == other;
      }
    }
  }

  lemma CutLives(r: Run, tid: int, mark: int, low: int)
    requires Shape(r, low) && LivesOk(r, low) && r.s.advanced
    requires tid in r.s.tracks && Accruing(r.s.tracks[tid], mark)
    ensures Held(RunCut(r, tid, mark)) && LivesOk(RunCut(r, tid, mark), low)
  {
    CutFrame(r.s, tid, mark);
    CutLivesWell(r, tid, mark, low);
    CutHolders(r, tid, mark, low);
  }

  lemma CutExact(r: Run, tid: int, mark: int, low: int)
    requires Inv(r, low) && tid in r.s.tracks && Accruing(r.s.tracks[tid], mark)
    ensures Exact(RunCut(r, tid, mark))
  {
    var q, x := RunCut(r, tid, mark), CutSeg(r, tid, mark);
    forall n: nat, w: nat, s | n < |q.lives| ensures LifeExact(q.s.grid, q.segs, q.lives[n], n, w, s) {
      assert LifeExact(r.s.grid, r.segs, r.lives[n], n, w, s);
      if n == r.holder[tid] {
        AppliedExact(r.s.grid, r.segs, r.lives[n], q.lives[n], n, x, w, s);
      } else {
        BookedMore(r.s.grid, r.segs, x, Living(n), w, s);
      }
    }
  }

  lemma CutWindow(s: Timeline, tid: int, mark: int, w: nat, id: Identity, st: SchedState, m: Metric)
    requires s.Valid() && tid in s.tracks && Accruing(s.tracks[tid], mark)
    ensures var t, v, q := s.tracks[tid], WindowAt(s.windows, w), WindowAt(Cut(s, tid, mark).windows, w);
            && TimeOf(q, id, st) == TimeOf(v, id, st) + (if id == t.id && st == t.state && s.nextWindow <= w
                                                        then s.grid.Overlap(t.since, mark, w) else 0)
            && MetricOf(q, id, m) == MetricOf(v, id, m) && LongestOf(q, id) == LongestOf(v, id)
            && WindowMetric(q, m) == WindowMetric(v, m)
            && (RowsOk(v, s.grid.Start(w), s.grid.End(w)) ==> RowsOk(q, s.grid.Start(w), s.grid.End(w)))
  {
    var t, v := s.tracks[tid], WindowAt(s.windows, w);
    BookAt(s.grid, s.windows, s.nextWindow, t, t.since, mark, w);
    var o := s.grid.Overlap(t.since, mark, w);
    PostTime(s.grid, w, v, t, o, id, st);
    PostMetrics(s.grid, w, v, t, o, id, m);
    if RowsOk(v, s.grid.Start(w), s.grid.End(w)) {
      PostRows(s.grid, w, v, t, o);
    }
  }

  lemma CutReconciled(r: Run, tid: int, mark: int, low: int)
    requires Inv(r, low) && tid in r.s.tracks && Accruing(r.s.tracks[tid], mark)
    ensures Reconciled(RunCut(r, tid, mark))
  {
    var q := RunCut(r, tid, mark);
    CutFrame(r.s, tid, mark);
    forall w: nat, id, s ensures TimeAgrees(q, w, id, s) {
      assert TimeAgrees(r, w, id, s);
      CutWindow(r.s, tid, mark, w, id, s, Events);
      TimeStep(r, q, CutSeg(r, tid, mark), w, id, s);
    }
    forall w: nat, id, m ensures MetricAgrees(q, w, id, m) {
      assert MetricAgrees(r, w, id, m);
      CutWindow(r.s, tid, mark, w, id, SchedState.Unknown, m);
    }
    forall w: nat ensures RowsOk(WindowOf(q, w), q.s.grid.Start(w), q.s.grid.End(w)) {
      assert RowsOk(WindowOf(r, w), r.s.grid.Start(w), r.s.grid.End(w));
      CutWindow(r.s, tid, mark, w, Identity(0, 0, 0), SchedState.Unknown, Events);
    }
  }

  lemma CutCovered(r: Run, tid: int, mark: int, low: int)
    requires Inv(r, low) && tid in r.s.tracks && Accruing(r.s.tracks[tid], mark)
    ensures Covered(RunCut(r, tid, mark))
  {
    var q, t := RunCut(r, tid, mark), r.s.tracks[tid];
    forall n: nat | n < |q.lives| ensures LatencyCovered(q.entries, q.lives[n], n) {
      var l := r.lives[n];
      assert LatencyCovered(r.entries, l, n) && l.Ok(r.s.grid.origin);
      if n == r.holder[tid] {
        Split(l.seed, l.deeds, l.born, t.since, mark, Runnable);
        Steady(l.seed, l.deeds, t.since, mark, Runnable);
      }
    }
  }

  lemma CutDeadBooks(r: Run, tid: int, mark: int)
    requires Held(r) && Owned(r) && DeadBooks(r) && tid in r.s.tracks && Accruing(r.s.tracks[tid], mark)
    ensures Owned(RunCut(r, tid, mark)) && DeadBooks(RunCut(r, tid, mark))
  {
    var q, n := RunCut(r, tid, mark), r.holder[tid];
    assert q.lives[n].deeds == r.lives[n].deeds;
    forall x | x in q.segs && !x.alive ensures !q.lives[x.life].NothingAfterDeath() {
      assert x in r.segs;
    }
  }

  lemma CutPublished(r: Run, tid: int, mark: int)
    requires Held(r) && |r.closed| == |r.emitted| && Published(r)
    requires tid in r.s.tracks && Accruing(r.s.tracks[tid], mark)
    ensures var q := RunCut(r, tid, mark); |q.closed| == |q.emitted| && Published(q)
  {
  }

  lemma CutKeepsInv(r: Run, tid: int, mark: int, low: int)
    requires Inv(r, low) && r.s.advanced && tid in r.s.tracks && Accruing(r.s.tracks[tid], mark)
    ensures Inv(RunCut(r, tid, mark), low)
  {
    CutShape(r, tid, mark, low);
    CutLives(r, tid, mark, low);
    CutExact(r, tid, mark, low);
    CutReconciled(r, tid, mark, low);
    CutCovered(r, tid, mark, low);
    CutDeadBooks(r, tid, mark);
    CutPublished(r, tid, mark);
  }

  /** Cutting carries the track to the mark, and changes no other. */
  lemma CutCarries(r: Run, tid: int, mark: int)
    requires Held(r) && tid in r.s.tracks
    ensures var q := RunCut(r, tid, mark);
            && Held(q) && q.s.(tracks := r.s.tracks, windows := r.s.windows) == r.s
            && q.s.tracks.Keys == r.s.tracks.Keys
            && (q.s.tracks[tid].alive ==> mark <= q.s.tracks[tid].since)
            && forall other :: other in r.s.tracks && other != tid ==> q.s.tracks[other] == r.s.tracks[other]
  {
  }

  lemma {:induction false} CutAllCarries(r: Run, tids: set<int>, mark: int)
    requires Held(r) && tids <= r.s.tracks.Keys
    ensures var q := RunCutAll(r, tids, mark);
            && q.s.(tracks := r.s.tracks, windows := r.s.windows) == r.s && q.s.tracks.Keys == r.s.tracks.Keys
            && (forall tid :: tid in tids && q.s.tracks[tid].alive ==> mark <= q.s.tracks[tid].since)
            && (forall tid :: tid in r.s.tracks && tid !in tids ==> q.s.tracks[tid] == r.s.tracks[tid])
    decreases |tids|
  {
    if tids != {} {
      var tid := Any(tids);
      CutCarries(r, tid, mark);
      CutAllCarries(RunCut(r, tid, mark), tids - {tid}, mark);
    }
  }

  lemma {:induction false} CutAllKeeps(r: Run, tids: set<int>, mark: int, low: int)
    requires Inv(r, low) && r.s.advanced && tids <= r.s.tracks.Keys
    ensures Inv(RunCutAll(r, tids, mark), low)
    decreases |tids|
  {
    if tids != {} {
      var tid := Any(tids);
      CutCarries(r, tid, mark);
      if Accruing(r.s.tracks[tid], mark) { CutKeepsInv(r, tid, mark, low); }
      CutAllKeeps(RunCut(r, tid, mark), tids - {tid}, mark, low);
    }
  }

  /** Closing moves windows from pending to emitted without touching them. */
  lemma CloseWindow(r: Run, mark: int, lost: nat, w: nat, low: int)
    requires Shape(r, low)
    ensures WindowOf(RunClose(r, mark, lost), w) == WindowOf(r, w)
  {
  }

  lemma CloseShape(r: Run, mark: int, lost: nat, low: int)
    requires Shape(r, low) && r.s.grid.origin <= mark <= r.s.watermark && r.s.advanced
    ensures Shape(RunClose(r, mark, lost), r.s.watermark)
  {
    r.s.grid.Ordered(r.s.grid.Index(mark), r.s.nextWindow);
  }

  lemma CloseKeeps(r: Run, mark: int, lost: nat, low: int)
    requires Inv(r, low) && r.s.grid.origin <= mark && r.s.advanced && r.s.watermark == Max(low, mark)
    requires forall tid :: tid in r.s.tracks && r.s.tracks[tid].alive ==> mark <= r.s.tracks[tid].since
    ensures Inv(RunClose(r, mark, lost), r.s.watermark)
  {
    var q := RunClose(r, mark, lost);
    CloseShape(r, mark, lost, low);
    assert LivesOk(q, r.s.watermark) by {
      forall tid | tid in q.holder ensures Carried(q.s, q.s.tracks[tid], r.s.watermark) {
        assert Carried(r.s, r.s.tracks[tid], low);
      }
    }
    assert Exact(q) by {
      forall n: nat, w: nat, s | n < |q.lives| ensures LifeExact(q.s.grid, q.segs, q.lives[n], n, w, s) {
        assert LifeExact(r.s.grid, r.segs, r.lives[n], n, w, s);
      }
    }
    CloseReconciled(r, mark, lost, low);
    ClosePublished(r, mark, lost, low);
    assert Covered(q) by {
      forall n: nat | n < |q.lives| ensures LatencyCovered(q.entries, q.lives[n], n) {
        assert LatencyCovered(r.entries, r.lives[n], n);
      }
    }
  }

  lemma ClosePublished(r: Run, mark: int, lost: nat, low: int)
    requires Shape(r, low) && Published(r)
    ensures |RunClose(r, mark, lost).closed| == |RunClose(r, mark, lost).emitted| && Published(RunClose(r, mark, lost))
  {
    var q := RunClose(r, mark, lost);
    forall w | |r.emitted| <= w < |q.emitted|
      ensures q.emitted[w] == ReportOf(r.s, w, lost) && q.closed[w] == WindowAt(r.s.windows, w)
    {
      var i := w - |r.emitted|;
      assert q.emitted[w] == Reports(r.s, NextOpen(r.s, mark), lost)[i];
    }
  }

  lemma CloseReconciled(r: Run, mark: int, lost: nat, low: int)
    requires Shape(r, low) && Reconciled(r)
    ensures Reconciled(RunClose(r, mark, lost))
  {
    var q := RunClose(r, mark, lost);
    forall w: nat, id, s ensures TimeAgrees(q, w, id, s) {
      assert TimeAgrees(r, w, id, s);
      CloseWindow(r, mark, lost, w, low);
    }
    forall w: nat, id, m ensures MetricAgrees(q, w, id, m) {
      assert MetricAgrees(r, w, id, m);
      CloseWindow(r, mark, lost, w, low);
    }
    forall w: nat ensures RowsOk(WindowOf(q, w), q.s.grid.Start(w), q.s.grid.End(w)) {
      assert RowsOk(WindowOf(r, w), r.s.grid.Start(w), r.s.grid.End(w));
      CloseWindow(r, mark, lost, w, low);
    }
  }

  lemma MarkKeeps(r: Run, mark: int)
    requires Inv(r, r.s.watermark)
    ensures Inv(r.(s := Mark(r.s, mark)), r.s.watermark)
  {
    var q := r.(s := Mark(r.s, mark));
    assert Exact(q) by {
      forall n: nat, w: nat, s | n < |q.lives| ensures LifeExact(q.s.grid, q.segs, q.lives[n], n, w, s) {
        assert LifeExact(r.s.grid, r.segs, r.lives[n], n, w, s);
      }
    }
    assert Reconciled(q) by {
      forall w: nat, id, s ensures TimeAgrees(q, w, id, s) { assert TimeAgrees(r, w, id, s); }
      forall w: nat, id, m ensures MetricAgrees(q, w, id, m) { assert MetricAgrees(r, w, id, m); }
      forall w: nat ensures RowsOk(WindowOf(q, w), q.s.grid.Start(w), q.s.grid.End(w)) {
        assert RowsOk(WindowOf(r, w), r.s.grid.Start(w), r.s.grid.End(w));
      }
    }
  }

  lemma AdvanceKeeps(r: Run, mark: int, lost: nat)
    requires Inv(r, r.s.watermark)
    ensures Inv(RunAdvance(r, mark, lost), RunAdvance(r, mark, lost).s.watermark)
  {
    if r.s.grid.origin <= mark {
      var marked := r.(s := Mark(r.s, mark));
      MarkKeeps(r, mark);
      CutAllKeeps(marked, r.s.tracks.Keys, mark, r.s.watermark);
      CutAllCarries(marked, r.s.tracks.Keys, mark);
      CloseKeeps(RunCutAll(marked, r.s.tracks.Keys, mark), mark, lost, r.s.watermark);
    }
  }
}
