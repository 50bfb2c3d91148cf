/** `Observe` keeps the invariant. */
module EventObserveStep {
  import opened Windows
  import opened Model
  import opened EventTimeline
  import opened Lifetimes
  import opened EventLedger
  import opened EventRows
  import opened EventInvariant

  /** An applied event never falls into an emitted window. */
  lemma AppliedIsOpen(r: Run, e: Event)
    requires Shape(r, r.s.watermark) && FateOf(r.s, e).Applied?
    ensures r.s.nextWindow <= r.s.grid.Index(e.timestamp)
  {
    var g := r.s.grid;
    if g.Index(e.timestamp) < r.s.nextWindow {
      g.Ordered(g.Index(e.timestamp), r.s.nextWindow);
    }
  }

  ghost predicate AllOpen(ws: map<int, Window>, floor: nat) { forall w :: w in ws ==> floor <= w }

  lemma BookOpen(g: Grid, ws: map<int, Window>, floor: nat, t: Track, lo: int, hi: int)
    requires g.Valid() && AllOpen(ws, floor)
    ensures AllOpen(Book(g, ws, floor, t, lo, hi), floor)
  {
  }

  lemma HandoverOpen(s: Timeline, e: Event)
    requires s.grid.Valid() && AllOpen(s.windows, s.nextWindow)
    ensures AllOpen(AfterHandover(s, e), s.nextWindow)
  {
  }

  lemma MetOpen(s: Timeline, t: Track, e: Event)
    requires s.grid.Valid() && AllOpen(s.windows, s.nextWindow)
    requires Judge(s.grid.origin, t, e).Applied? ==> s.nextWindow <= s.grid.Index(e.timestamp)
    ensures AllOpen(WindowsAfter(s, t, e), s.nextWindow)
  {
    BookOpen(s.grid, s.windows, s.nextWindow, t, t.since, e.timestamp);
  }

  lemma ObserveOpen(r: Run, e: Event)
    requires Shape(r, r.s.watermark)
    ensures AllOpen(EventTimeline.Observe(r.s, e).windows, r.s.nextWindow)
  {
    if !Ignored(e) && !Expired(r.s, e) {
      if FateOf(r.s, e).Applied? { AppliedIsOpen(r, e); }
      HandoverOpen(r.s, e);
      MetOpen(r.s.(windows := AfterHandover(r.s, e)), TrackOf(r.s, e), e);
    }
  }

  lemma ObserveHeld(r: Run, e: Event)
    requires Held(r)
    ensures Held(RunObserve(r, e))
  {
    ObserveFrame(r.s, e);
  }

  lemma ObserveShape(r: Run, e: Event)
    requires Shape(r, r.s.watermark)
    ensures Shape(RunObserve(r, e), r.s.watermark)
  {
    ObserveHeld(r, e);
    ObserveOpen(r, e);
    assert var q := EventTimeline.Observe(r.s, e); q.(tracks := r.s.tracks, windows := r.s.windows) == r.s by {
      ObserveFrame(r.s, e);
    }
  }

  lemma ObserveLives(r: Run, e: Event)
    requires Shape(r, r.s.watermark) && LivesOk(r, r.s.watermark)
    ensures Held(RunObserve(r, e)) && LivesOk(RunObserve(r, e), r.s.watermark)
  {
    ObserveShape(r, e);
    ObserveWell(r, e);
    ObserveHolders(r, e);
    ObserveOwned(r, e);
  }

  lemma ObserveWell(r: Run, e: Event)
    requires Shape(r, r.s.watermark) && LivesOk(r, r.s.watermark)
    ensures LivesWell(RunObserve(r, e).lives, r.s.grid.origin)
  {
    if !Ignored(e) && !Expired(r.s, e) {
      LifeAfterOk(r, e);
      WellWith(r.lives, LifeOf(r, e), LifeAfter(r, e), r.s.grid.origin);
    }
  }

  lemma WellWith(lives: seq<Life>, n: nat, l: Life, origin: int)
    requires LivesWell(lives, origin) && l.Ok(origin)
    ensures LivesWell(lives + [l], origin)
    ensures n < |lives| ==> LivesWell(lives[n := l], origin)
  {
  }

  lemma ObserveOwned(r: Run, e: Event)
    requires Held(r) && Owned(r)
    ensures Owned(RunObserve(r, e))
  {
    var q, x := RunObserve(r, e), EntryOf(r, e);
    assert |r.lives| <= |q.lives|;
    assert FateOf(r.s, e).Applied? ==> LifeOf(r, e) < |q.lives|;
    forall y | y in q.entries && y.Counted? ensures y.life < |q.lives| {
      assert y in r.entries || y == x;
    }
  }

  /** Each TID still finds its own track. */
  lemma ObserveHolders(r: Run, e: Event)
    requires Shape(r, r.s.watermark) && LivesOk(r, r.s.watermark)
    ensures Held(RunObserve(r, e)) && HoldersOk(RunObserve(r, e), r.s.watermark)
  {
    ObserveFrame(r.s, e);
    ObserveShape(r, e);
    if !Ignored(e) && !Expired(r.s, e) {
      assert Carried(r.s, TrackAfter(r.s.grid.origin, TrackOf(r.s, e), e), r.s.watermark) by {
        LifeBeforeOk(r, e);
        CarriedAfter(r.s, TrackOf(r.s, e), e);
      }
      var q := RunObserve(r, e);
      forall tid | tid in q.holder
        ensures q.lives[q.holder[tid]].track == q.s.tracks[tid] && Carried(q.s, q.s.tracks[tid], r.s.watermark)
      {
        if tid != e.tid {
          assert r.lives[r.holder[tid]].track.id.tid == tid;
        }
      }
    }
  }

  // ---------------------------------------------------------------- timelines

  lemma {:induction false} NoSegs(g: Grid, segs: seq<Seg>, n: nat, w: int, s: SchedState)
    requires forall x :: x in segs ==> x.life != n
    ensures Booked(g, segs, Living(n), w, s) == 0 == Booked(g, segs, OfLife(n), w, s)
  {
    if segs != [] { NoSegs(g, segs[..|segs| - 1], n, w, s); }
  }

  lemma BeforeExact(r: Run, e: Event, w: nat, s: SchedState)
    requires Shape(r, r.s.watermark) && LivesOk(r, r.s.watermark) && Exact(r)
    requires !Ignored(e) && !Expired(r.s, e)
    ensures LifeExact(r.s.grid, r.segs, LifeBefore(r, e), LifeOf(r, e), w, s)
  {
    var n := LifeOf(r, e);
    if n < |r.lives| {
      assert LifeExact(r.s.grid, r.segs, r.lives[n], n, w, s);
      assert r.lives[n].track.since == TrackOf(r.s, e).since;
    } else {
      NoSegs(r.s.grid, r.segs, n, w, s);
    }
  }

  /** Booking a closed segment keeps its lifetime exact. */
  lemma AppliedExact(g: Grid, segs: seq<Seg>, l: Life, k: Life, n: nat, x: Seg, w: nat, s: SchedState)
    requires g.Valid() && l.Ok(g.origin) && LifeExact(g, segs, l, n, w, s)
    requires x.life == n && x.state == l.track.state && x.alive == l.track.alive
    requires x.lo == l.track.since <= x.hi == k.track.since
    requires x.alive ==> g.Start(x.floor) <= x.lo
    requires k.born == l.born && k.seed == l.seed
    requires k.deeds == l.deeds || exists d: Deed :: k.deeds == l.deeds + [d] && d.at == x.hi
    ensures LifeExact(g, segs + [x], k, n, w, s)
  {
    var lo := Max(l.born, g.Start(w));
    Extend(g, l, x.hi, w, s);
    BookedMore(g, segs, x, Living(n), w, s);
    if x.alive && w < x.floor {
      NothingSkipped(g, x.floor, x.lo, x.hi, w);
    }
    if k.deeds != l.deeds {
      var d :| k.deeds == l.deeds + [d] && d.at == x.hi;
      PastKept(l.seed, l.deeds, d, lo, Min(x.hi, g.End(w)), s);
    }
  }

  /** Nothing is measured before the origin. */
  lemma EarlyExact(g: Grid, segs: seq<Seg>, l: Life, k: Life, n: nat, w: nat, s: SchedState)
    requires g.Valid() && LifeExact(g, segs, l, n, w, s)
    requires l.track.since == k.track.since == g.origin
    ensures LifeExact(g, segs, k, n, w, s)
  {
    g.Ordered(0, w);
  }

  lemma SubjectExact(r: Run, e: Event, w: nat, s: SchedState)
    requires Inv(r, r.s.watermark) && !Ignored(e) && !Expired(r.s, e)
    ensures LifeExact(r.s.grid, RunObserve(r, e).segs, LifeAfter(r, e), LifeOf(r, e), w, s)
  {
    var g, n, l := r.s.grid, LifeOf(r, e), LifeBefore(r, e);
    BeforeExact(r, e, w, s);
    LifeBeforeOk(r, e);
    LifeAfterShape(r, e);
    var f := Judge(g.origin, l.track, e);
    if f.Applied? {
      assert LifeAfter(r, e).deeds == l.deeds + [Deed(e.timestamp, e.kind, e.state)];
      assert LifeAfter(r, e).track.since == e.timestamp;
      AppliedExact(g, r.segs, l, LifeAfter(r, e), n, SegOf(r, e), w, s);
    } else if f.Early? {
      EarlyExact(g, r.segs, l, LifeAfter(r, e), n, w, s);
    }
  }

  lemma ObserveExact(r: Run, e: Event)
    requires Inv(r, r.s.watermark)
    ensures Exact(RunObserve(r, e))
  {
    var q := RunObserve(r, e);
    forall n: nat, w: nat, s | n < |q.lives| ensures LifeExact(q.s.grid, q.segs, q.lives[n], n, w, s) {
      if !Ignored(e) && !Expired(r.s, e) && n == LifeOf(r, e) {
        SubjectExact(r, e, w, s);
      } else {
        assert LifeExact(r.s.grid, r.segs, r.lives[n], n, w, s);
        BookedMore(r.s.grid, r.segs, SegOf(r, e), Living(n), w, s);
      }
    }
  }

  // ---------------------------------------------------------------- rows

  lemma HandoverWindow(s: Timeline, e: Event, w: int, m: Metric)
    requires s.grid.Valid()
    ensures WindowAt(AfterHandover(s, e), w).stats == WindowAt(s.windows, w).stats
    ensures WindowMetric(WindowAt(AfterHandover(s, e), w), m) == WindowMetric(WindowAt(s.windows, w), m)
  {
    QualityOnly(s.grid, s.windows, s.nextWindow, e.timestamp, w, m);
  }

  /** A window after the booking of an applied event's segment. */
  function Posted(s: Timeline, e: Event, w: int): Window
    requires s.grid.Valid()
  {
    var t, h := TrackOf(s, e), WindowAt(AfterHandover(s, e), w);
    if Reaches(s.grid, s.nextWindow, t.since, e.timestamp, w)
    then Post(s.grid, w, h, t, s.grid.Overlap(t.since, e.timestamp, w)) else h
  }

  lemma AppliedWindow(s: Timeline, e: Event, w: int)
    requires s.grid.Valid() && FateOf(s, e).Applied?
    ensures WindowAt(EventTimeline.Observe(s, e).windows, w) ==
            if w == s.grid.Index(e.timestamp) then Recorded(s.grid, w, Posted(s, e, w), TrackOf(s, e), e)
            else Posted(s, e, w)
  {
    var t := TrackOf(s, e);
    AppliedWindows(s, e);
    BookAt(s.grid, AfterHandover(s, e), s.nextWindow, t, t.since, e.timestamp, w);
  }

  /** An event that is not applied changes no row. */
  lemma MetWindow(s: Timeline, t: Track, e: Event, w: int, m: Metric)
    requires s.grid.Valid() && !Judge(s.grid.origin, t, e).Applied?
    ensures var v, q := WindowAt(s.windows, w), WindowAt(WindowsAfter(s, t, e), w);
            var late := Judge(s.grid.origin, t, e).Late? && w == s.nextWindow;
            q.stats == v.stats
            && WindowMetric(q, m) == WindowMetric(v, m) + if late then Score(LateIn(s.nextWindow), m) else 0
  {
    QualityOnly(s.grid, s.windows, s.nextWindow, s.grid.origin, w, m);
  }

  lemma OtherWindow(s: Timeline, e: Event, w: int, m: Metric)
    requires s.grid.Valid() && !FateOf(s, e).Applied?
    ensures var v, q := WindowAt(s.windows, w), WindowAt(EventTimeline.Observe(s, e).windows, w);
            && q.stats == v.stats
            && WindowMetric(q, m) == WindowMetric(v, m)
               + if FateOf(s, e).Late? && w == s.nextWindow then Score(LateIn(s.nextWindow), m) else 0
  {
    if !Ignored(e) {
      if Expired(s, e) {
        QualityOnly(s.grid, s.windows, s.nextWindow, s.grid.origin, w, m);
      } else {
        HandoverWindow(s, e, w, m);
        MetWindow(s.(windows := AfterHandover(s, e)), TrackOf(s, e), e, w, m);
      }
    }
  }

  lemma PostedWindow(s: Timeline, e: Event, w: int, id: Identity, st: SchedState, m: Metric)
    requires s.grid.Valid()
    ensures var t, v, q := TrackOf(s, e), WindowAt(s.windows, w), Posted(s, e, w);
            && TimeOf(q, id, st) == TimeOf(v, id, st) + (if id == t.id && st == t.state && s.nextWindow <= w
                                                        then s.grid.Overlap(t.since, e.timestamp, w) else 0)
            && MetricOf(q, id, m) == MetricOf(v, id, m)
            && WindowMetric(q, m) == WindowMetric(v, m)
            && LongestOf(q, id) == LongestOf(v, id)
  {
    var t, h := TrackOf(s, e), WindowAt(AfterHandover(s, e), w);
    HandoverWindow(s, e, w, m);
    PostTime(s.grid, w, h, t, s.grid.Overlap(t.since, e.timestamp, w), id, st);
    PostMetrics(s.grid, w, h, t, s.grid.Overlap(t.since, e.timestamp, w), id, m);
  }

  lemma AppliedTime(s: Timeline, e: Event, w: int, id: Identity, st: SchedState)
    requires s.grid.Valid() && FateOf(s, e).Applied?
    ensures var t := TrackOf(s, e);
            TimeOf(WindowAt(EventTimeline.Observe(s, e).windows, w), id, st) == TimeOf(WindowAt(s.windows, w), id, st)
            + if id == t.id && st == t.state && s.nextWindow <= w then s.grid.Overlap(t.since, e.timestamp, w) else 0
  {
    AppliedWindow(s, e, w);
    PostedWindow(s, e, w, id, st, Events);
    RecordedTime(s.grid, w, Posted(s, e, w), TrackOf(s, e), e, id, st);
  }

  lemma OtherTime(r: Run, e: Event, w: nat, id: Identity, s: SchedState)
    requires Shape(r, r.s.watermark) && TimeAgrees(r, w, id, s) && !FateOf(r.s, e).Applied?
    ensures TimeAgrees(RunObserve(r, e), w, id, s)
  {
    if r.s.nextWindow <= w { OtherWindow(r.s, e, w, Events); }
  }

  lemma ObserveTime(r: Run, e: Event, w: nat, id: Identity, s: SchedState)
    requires Shape(r, r.s.watermark) && TimeAgrees(r, w, id, s)
    ensures TimeAgrees(RunObserve(r, e), w, id, s)
  {
    if FateOf(r.s, e).Applied? {
      ObserveFrame(r.s, e);
      AppliedTime(r.s, e, w, id, s);
      TimeStep(r, RunObserve(r, e), SegOf(r, e), w, id, s);
    } else {
      OtherTime(r, e, w, id, s);
    }
  }

  lemma AppliedMetric(s: Timeline, e: Event, w: nat, id: Identity, m: Metric, x: Entry)
    requires s.grid.Valid() && FateOf(s, e).Applied? && x.Counted? && x.window == s.grid.Index(e.timestamp)
    requires var t := TrackOf(s, e);
             x == Counted(x.life, x.window, t.id, e.kind.SwitchIn?, Latency(t, e), Abandons(t, e))
    ensures var v, q := WindowAt(s.windows, w), WindowAt(EventTimeline.Observe(s, e).windows, w);
            && MetricOf(q, id, m) == MetricOf(v, id, m) + (if Covers(InRow(w, id), x) then Score(x, m) else 0)
            && (Reported(m) ==>
                  WindowMetric(q, m) == WindowMetric(v, m) + if Covers(InWindow(w), x) then Score(x, m) else 0)
            && LongestOf(q, id) ==
               if Covers(InRow(w, id), x) then Max(LongestOf(v, id), x.latency) else LongestOf(v, id)
  {
    AppliedWindow(s, e, w);
    PostedWindow(s, e, w, id, SchedState.Unknown, m);
    RecordedMetrics(s.grid, w, Posted(s, e, w), TrackOf(s, e), e, x.life, id, m);
  }

  lemma ObserveMetric(r: Run, e: Event, w: nat, id: Identity, m: Metric)
    requires Shape(r, r.s.watermark) && MetricAgrees(r, w, id, m)
    ensures MetricAgrees(RunObserve(r, e), w, id, m)
  {
    var x := EntryOf(r, e);
    ObserveFrame(r.s, e);
    if FateOf(r.s, e).Applied? {
      AppliedIsOpen(r, e);
      AppliedMetric(r.s, e, w, id, m, x);
      MetricStep(r, RunObserve(r, e), x, w, id, m);
    } else {
      OtherMetric(r, e, w, id, m);
    }
  }

  lemma OtherMetric(r: Run, e: Event, w: nat, id: Identity, m: Metric)
    requires Shape(r, r.s.watermark) && MetricAgrees(r, w, id, m) && !FateOf(r.s, e).Applied?
    ensures MetricAgrees(RunObserve(r, e), w, id, m)
  {
    OtherWindow(r.s, e, w, m);
    MetricStep(r, RunObserve(r, e), EntryOf(r, e), w, id, m);
  }

  lemma AppliedRows(s: Timeline, e: Event, w: nat)
    requires s.grid.Valid() && FateOf(s, e).Applied?
    requires RowsOk(WindowAt(s.windows, w), s.grid.Start(w), s.grid.End(w))
    ensures RowsOk(WindowAt(EventTimeline.Observe(s, e).windows, w), s.grid.Start(w), s.grid.End(w))
  {
    var t, h := TrackOf(s, e), WindowAt(AfterHandover(s, e), w);
    AppliedWindow(s, e, w);
    HandoverWindow(s, e, w, Events);
    PostRows(s.grid, w, h, t, s.grid.Overlap(t.since, e.timestamp, w));
    RecordedRows(s.grid, w, Posted(s, e, w), t, e);
  }

  lemma ObserveRows(r: Run, e: Event, w: nat)
    requires Shape(r, r.s.watermark) && RowsOk(WindowOf(r, w), r.s.grid.Start(w), r.s.grid.End(w))
    ensures RowsOk(WindowOf(RunObserve(r, e), w), r.s.grid.Start(w), r.s.grid.End(w))
  {
    if r.s.nextWindow <= w {
      if FateOf(r.s, e).Applied? { AppliedRows(r.s, e, w); } else { OtherWindow(r.s, e, w, Events); }
    }
  }

  lemma ObserveReconciled(r: Run, e: Event)
    requires Inv(r, r.s.watermark)
    ensures Reconciled(RunObserve(r, e))
  {
    var q := RunObserve(r, e);
    ObserveFrame(r.s, e);
    forall w: nat, id, s ensures TimeAgrees(q, w, id, s) {
      assert TimeAgrees(r, w, id, s);
      ObserveTime(r, e, w, id, s);
    }
    forall w: nat, id, m ensures MetricAgrees(q, w, id, m) {
      assert MetricAgrees(r, w, id, m);
      ObserveMetric(r, e, w, id, m);
    }
    forall w: nat ensures RowsOk(WindowOf(q, w), q.s.grid.Start(w), q.s.grid.End(w)) {
      ObserveRows(r, e, w);
    }
  }

  // ---------------------------------------------------------------- wakeups

  lemma {:induction false} NoEntries(entries: seq<Entry>, n: nat, m: Metric)
    requires forall x :: x in entries && x.Counted? ==> x.life != n
    ensures Sum(entries, ByLife(n), m) == 0
  {
    if entries != [] { NoEntries(entries[..|entries| - 1], n, m); }
  }

  lemma BeforeCovered(r: Run, e: Event)
    requires Inv(r, r.s.watermark) && !Ignored(e) && !Expired(r.s, e)
    ensures LatencyCovered(r.entries, LifeBefore(r, e), LifeOf(r, e))
  {
    var n := LifeOf(r, e);
    if n < |r.lives| {
      assert LatencyCovered(r.entries, r.lives[n], n);
      assert r.lives[n].track.since == TrackOf(r.s, e).since;
    } else {
      NoEntries(r.entries, n, LatencyTotal);
    }
  }

  /** Queue time grows as fast as a wakeup waits. */
  lemma AppliedCovered(g: Grid, entries: seq<Entry>, l: Life, k: Life, n: nat, e: Event, x: Entry)
    requires g.Valid() && l.Ok(g.origin) && LatencyCovered(entries, l, n)
    requires l.track.since <= e.timestamp == k.track.since && e.timestamp != 0
    requires x.Counted? && x.life == n && x.latency == Latency(l.track, e)
    requires k.born == l.born && k.seed == l.seed && k.deeds == l.deeds + [Deed(e.timestamp, e.kind, e.state)]
    requires k.track.wakeupAt == Transition(g.origin, l.track, e, true).wakeupAt && g.origin <= e.timestamp
    ensures LatencyCovered(entries + [x], k, n)
  {
    if k.NothingAfterDeath() {
      assert l.NothingAfterDeath() by {
        forall i | 0 <= i < |l.deeds| - 1 ensures !l.deeds[i].IsDeath() { assert k.deeds[i] == l.deeds[i]; }
      }
      if l.deeds != [] { assert !k.deeds[|l.deeds| - 1].IsDeath(); }
      SumMore(entries, x, ByLife(n), LatencyTotal);
      var d := Deed(e.timestamp, e.kind, e.state);
      PastKept(l.seed, l.deeds, d, l.born, e.timestamp, Runnable);
      Split(l.seed, l.deeds, l.born, l.track.since, e.timestamp, Runnable);
      Steady(l.seed, l.deeds, l.track.since, e.timestamp, Runnable);
    }
  }

  lemma SubjectCovered(r: Run, e: Event)
    requires Inv(r, r.s.watermark) && !Ignored(e) && !Expired(r.s, e)
    ensures LatencyCovered(RunObserve(r, e).entries, LifeAfter(r, e), LifeOf(r, e))
  {
    var g, n, l := r.s.grid, LifeOf(r, e), LifeBefore(r, e);
    BeforeCovered(r, e);
    LifeBeforeOk(r, e);
    LifeAfterShape(r, e);
    var f := Judge(g.origin, l.track, e);
    if f.Applied? {
      AppliedCovered(g, r.entries, l, LifeAfter(r, e), n, e, EntryOf(r, e));
    } else {
      SumMore(r.entries, EntryOf(r, e), ByLife(n), LatencyTotal);
      if f.Early? {
        EarlyCovered(g, RunObserve(r, e).entries, l, LifeAfter(r, e), n, e);
      }
    }
  }

  lemma EarlyCovered(g: Grid, entries: seq<Entry>, l: Life, k: Life, n: nat, e: Event)
    requires l.Ok(g.origin) && LatencyCovered(entries, l, n) && e.timestamp < g.origin
             && l.track.lastEvent <= e.timestamp
    requires k.born == l.born && k.deeds == l.deeds + [Deed(e.timestamp, e.kind, e.state)]
    requires k.track.since == l.track.since == g.origin
    requires k.track.wakeupAt == Transition(g.origin, l.track, e, false).wakeupAt
    ensures LatencyCovered(entries, k, n)
  {
    if k.NothingAfterDeath() {
      forall i | 0 <= i < |l.deeds| - 1 ensures !l.deeds[i].IsDeath() { assert k.deeds[i] == l.deeds[i]; }
    }
  }

  lemma ObserveCovered(r: Run, e: Event)
    requires Inv(r, r.s.watermark)
    ensures Covered(RunObserve(r, e))
  {
    var q := RunObserve(r, e);
    forall n: nat | n < |q.lives| ensures LatencyCovered(q.entries, q.lives[n], n) {
      if !Ignored(e) && !Expired(r.s, e) && n == LifeOf(r, e) {
        SubjectCovered(r, e);
      } else {
        assert LatencyCovered(r.entries, r.lives[n], n);
        SumMore(r.entries, EntryOf(r, e), ByLife(n), LatencyTotal);
      }
    }
  }

  /** A death once followed by an event stays followed. */
  lemma DeathStays(l: Life, k: Life, d: Deed)
    requires k.deeds == l.deeds + [d] && k.NothingAfterDeath()
    ensures l.NothingAfterDeath()
    ensures forall i :: 0 <= i < |l.deeds| ==> !l.deeds[i].IsDeath()
  {
    forall i | 0 <= i < |l.deeds| ensures !l.deeds[i].IsDeath() { assert k.deeds[i] == l.deeds[i]; }
  }

  lemma SubjectDead(r: Run, e: Event)
    requires Inv(r, r.s.watermark) && !Ignored(e) && !Expired(r.s, e)
    ensures FateOf(r.s, e).Applied? && !TrackOf(r.s, e).alive ==> !LifeAfter(r, e).NothingAfterDeath()
    ensures !LifeBefore(r, e).NothingAfterDeath() ==> !LifeAfter(r, e).NothingAfterDeath()
  {
    LifeBeforeOk(r, e);
    LifeAfterShape(r, e);
    var l, k, d := LifeBefore(r, e), LifeAfter(r, e), Deed(e.timestamp, e.kind, e.state);
    if k.deeds == l.deeds + [d] && k.NothingAfterDeath() {
      DeathStays(l, k, d);
    }
  }

  lemma StillDead(r: Run, e: Event, n: nat)
    requires Inv(r, r.s.watermark) && n < |r.lives| && !r.lives[n].NothingAfterDeath()
    ensures n < |RunObserve(r, e).lives| && !RunObserve(r, e).lives[n].NothingAfterDeath()
  {
    if !Ignored(e) && !Expired(r.s, e) && n == LifeOf(r, e) {
      assert LifeBefore(r, e).deeds == r.lives[n].deeds;
      SubjectDead(r, e);
    }
  }

  lemma NewlyDead(r: Run, e: Event)
    requires Inv(r, r.s.watermark) && FateOf(r.s, e).Applied? && !TrackOf(r.s, e).alive
    ensures var q, n := RunObserve(r, e), LifeOf(r, e); n < |q.lives| && !q.lives[n].NothingAfterDeath()
  {
    SubjectDead(r, e);
  }

  lemma ObserveDead(r: Run, e: Event)
    requires Inv(r, r.s.watermark) && Owned(RunObserve(r, e))
    ensures DeadBooks(RunObserve(r, e))
  {
    var q := RunObserve(r, e);
    forall x | x in q.segs && !x.alive ensures !q.lives[x.life].NothingAfterDeath() {
      if x in r.segs {
        StillDead(r, e, x.life);
      } else {
        NewlyDead(r, e);
      }
    }
  }

  lemma ObserveKeeps(r: Run, e: Event)
    requires Inv(r, r.s.watermark)
    ensures Inv(RunObserve(r, e), RunObserve(r, e).s.watermark)
  {
    ObserveFrame(r.s, e);
    ObserveShape(r, e);
    ObserveLives(r, e);
    ObserveExact(r, e);
    ObserveReconciled(r, e);
    ObserveCovered(r, e);
    ObserveDead(r, e);
  }
}
