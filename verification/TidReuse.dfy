/** A run of the hybrid loop in which a thread number is reused within one clock tick, and its delays go to
    the wrong thread's row. */
module TidReuse {
  import opened Windows
  import opened Machine
  import opened Model
  import opened RowOrder
  import opened Snapshots
  import opened EventTimeline
  import SampleTimeline
  import opened Merge
  import opened Hybrid

  const GRID: Grid := Grid(100, 10)
  const OLDER: Identity := Identity(7, 5, 50)
  const NEWER: Identity := Identity(7, 5, 51)
  const SEEN: Identity := Identity(7, 5, 0)

  const FIRST_IN: Event := Event(101, 7, 7, 5, 50, "", SwitchIn, SchedState.Unknown)
  const SECOND_IN: Event := Event(105, 7, 7, 5, 51, "", SwitchIn, SchedState.Unknown)

  ghost predicate OwnRows(stats: map<Identity, Row>) { forall id :: id in stats ==> stats[id].id == id }

  /** The events' window 0 so far has these rows, and the thread number's track this identity. */
  ghost predicate Holding(s: Timeline, ids: set<Identity>, last: Identity) {
    && s.Valid() && s.grid == GRID && s.nextWindow == 0 && !s.advanced && s.watermark == 100
    && s.windows.Keys == (if ids == {} then {} else {0}) && WindowAt(s.windows, 0).stats.Keys == ids
    && OwnRows(WindowAt(s.windows, 0).stats)
    && s.tracks.Keys == (if ids == {} then {} else {7})
    && (ids != {} ==> s.tracks[7].id == last && s.tracks[7].alive && 100 <= s.tracks[7].since < 110)
  }

  lemma AfterFirst(s: Timeline)
    requires Holding(s, {}, OLDER)
    ensures Holding(EventTimeline.Observe(s, FIRST_IN), {OLDER}, OLDER)
  {
    GRID.IndexUnique(101, 0);
    assert GRID.Touched(0, 101, 101) == {};
  }

  /** The change of hands is counted; the rows stay. */
  lemma HandedOver(s: Timeline)
    requires Holding(s, {OLDER}, OLDER)
    ensures var raced := AfterHandover(s, SECOND_IN);
            raced.Keys == {0} && WindowAt(raced, 0).stats == WindowAt(s.windows, 0).stats
    ensures TrackOf(s, SECOND_IN) == NewTrack(100, SECOND_IN)
  {
    GRID.IndexUnique(105, 0);
  }

  lemma SecondRow(ws: map<int, Window>)
    requires ws.Keys == {0} && WindowAt(ws, 0).stats.Keys == {OLDER} && OwnRows(WindowAt(ws, 0).stats)
    ensures var t := NewTrack(100, SECOND_IN);
            var q := RecordEvent(GRID, Book(GRID, ws, 0, t, 105, 105), t, SECOND_IN);
            && q.Keys == {0} && WindowAt(q, 0).stats.Keys == {OLDER, NEWER}
            && OwnRows(WindowAt(q, 0).stats)
  {
    GRID.IndexUnique(105, 0);
    assert GRID.Touched(0, 105, 105) == {};
    assert Book(GRID, ws, 0, NewTrack(100, SECOND_IN), 105, 105) == ws;
  }

  lemma SecondTrack()
    ensures Judge(100, NewTrack(100, SECOND_IN), SECOND_IN).Applied?
    ensures var t := TrackAfter(100, NewTrack(100, SECOND_IN), SECOND_IN); t.id == NEWER && t.alive && t.since == 105
  {
  }

  lemma OneTrack(tracks: map<int, Track>, t: Track)
    requires tracks.Keys == {7}
    ensures tracks[7 := t].Keys == {7} && tracks[7 := t][7] == t
  {
  }

  lemma AfterSecond(s: Timeline)
    requires Holding(s, {OLDER}, OLDER)
    ensures Holding(EventTimeline.Observe(s, SECOND_IN), {OLDER, NEWER}, NEWER)
  {
    var q, raced, t := EventTimeline.Observe(s, SECOND_IN), AfterHandover(s, SECOND_IN), NewTrack(100, SECOND_IN);
    HandedOver(s);
    SecondTrack();
    assert q.windows == RecordEvent(GRID, Book(GRID, raced, 0, t, 105, 105), t, SECOND_IN) by {
      AppliedWindows(s, SECOND_IN);
    }
    SecondRow(raced);
    assert q.Valid() && q.(tracks := s.tracks, windows := s.windows) == s
           && q.tracks == s.tracks[7 := TrackAfter(100, t, SECOND_IN)] by {
      ObserveFrame(s, SECOND_IN);
    }
    OneTrack(s.tracks, TrackAfter(100, t, SECOND_IN));
    assert OLDER in {OLDER, NEWER};
  }

  lemma TwoRows(stats: map<Identity, Row>)
    requires stats.Keys == {OLDER, NEWER}
    ensures Rows(NanosecondsFirst, stats) == [stats[OLDER], stats[NEWER]]
  {
    OrderUnique(NanosecondsFirst, [OLDER, NEWER], Order(NanosecondsFirst, stats.Keys));
  }

  /** Cutting the track at the boundary adds to its own row. */
  lemma AfterCut(s: Timeline)
    requires Holding(s, {OLDER, NEWER}, NEWER)
    ensures var win := WindowAt(Cut(s, 7, 110).windows, 0);
            win.stats.Keys == {OLDER, NEWER} && OwnRows(win.stats)
  {
    BookAt(GRID, s.windows, 0, s.tracks[7], s.tracks[7].since, 110, 0);
  }

  lemma CutsOne(s: Timeline)
    requires s.Valid() && s.tracks.Keys == {7}
    ensures CutAll(s, {7}, 110) == Cut(s, 7, 110)
  {
    assert Any({7}) == 7;
    assert {7} - {7} == {};
  }

  lemma EventReport(s: Timeline)
    requires Holding(s, {OLDER, NEWER}, NEWER)
    ensures var reports := EventTimeline.Advance(s, 110, 0).1;
            |reports| == 1 && |reports[0].threads| == 2
            && reports[0].threads[0].id == OLDER && reports[0].threads[1].id == NEWER
  {
    var marked := Mark(s, 110);
    CutsOne(marked);
    var cut := Cut(marked, 7, 110);
    AfterCut(s);
    assert cut.windows == Cut(s, 7, 110).windows;
    GRID.IndexUnique(110, 1);
    assert EventTimeline.Reports(cut, 1, 0)[0] == EventTimeline.ReportOf(cut, 0 + 0, 0);
    TwoRows(WindowAt(cut.windows, 0).stats);
  }

  // ---------------------------------------------------------------- the auxiliary side

  /** Only the CPU counter is there; it grew by one. */
  function Counters(count: uint64): Delays {
    Delays(true, 1, true, true,
           PerResource<DelayCounter>.Each((r: Resource) =>
             if r.CPU? then DelayCounter(true, count, 0) else DelayCounter(false, 0, 0)))
  }

  const NO_SCHEDSTAT: Schedstat := Schedstat(false, 0, 0, 0)
  const BEFORE: Sample := Sample(7, SEEN, "", ThreadState.Running, 100, NO_SCHEDSTAT, Counters(0))
  const AFTER: Sample := Sample(7, SEEN, "", ThreadState.Running, 110, NO_SCHEDSTAT, Counters(1))
  const FIRST_SCAN: Snapshot := Snapshot([BEFORE], 100, 100, "")
  const SECOND_SCAN: Snapshot := Snapshot([AFTER], 110, 110, "")

  /** Window 0 has the one row. */
  ghost predicate One(ws: map<int, Window>, pairs: int) {
    var stats := SampleTimeline.WindowAt(ws, 0).stats;
    stats.Keys == {SEEN} && stats[SEEN].id == SEEN && stats[SEEN].delay.pairs == pairs
  }

  ghost predicate Waiting(s: SampleTimeline.Sampler) {
    && s.grid == GRID && s.fixedOrigin && s.initialized && s.nextWindow == 0
    && s.previous == map[SEEN := BEFORE] && One(s.windows, 0)
  }

  lemma OneById(x: Sample)
    ensures SampleTimeline.ByIdentity([x]) == map[x.id := x]
  {
    assert [x][..0] == [];
  }

  lemma AfterFirstScan()
    ensures var s := SampleTimeline.Sampler(GRID, true, false, map[], map[], 0);
            Waiting(SampleTimeline.Observe(s, FIRST_SCAN).0)
  {
    var s := SampleTimeline.Sampler(GRID, true, false, map[], map[], 0);
    OneById(BEFORE);
    assert FIRST_SCAN.samples[..0] == [];
    var ws := SampleTimeline.RecordScan(s, FIRST_SCAN);
    assert SampleTimeline.CountSamples(s, ws, FIRST_SCAN.samples) == SampleTimeline.Observation(GRID, ws, 0, 0, BEFORE);
  }

  /** Every visit of the gap is about the one thread; one of them brings its delays. */
  lemma VisitsOne(v: SampleTimeline.Visit, ws: map<int, Window>, pairs: int)
    requires One(ws, pairs) && v.sample.id == SEEN && v.lo == 100 && v.hi == 110
    requires v.what.DelayShares? ==> v.what.delay.Comparable()
    ensures One(SampleTimeline.Apply(GRID, ws, 0, v), pairs + if v.what.DelayShares? then 1 else 0)
  {
    assert GRID.Overlap(100, 110, 0) == 10;
    assert 0 in GRID.Touched(0, 100, 110);
  }

  lemma GapHasThree()
    ensures var vs := SampleTimeline.GapVisits(BEFORE, AFTER, 110);
      && |vs| == 3 && vs[0].what.DelayShares? && vs[0].what.delay.Comparable()
      && !vs[1].what.DelayShares? && !vs[2].what.DelayShares?
      && forall i :: 0 <= i < 3 ==> vs[i].sample.id == SEEN && vs[i].lo == 100 && vs[i].hi == 110
  {
    var d := SampleTimeline.DelayDeltaOf(BEFORE.delays, AFTER.delays);
    assert d.deltas.At(CPU) == SampleTimeline.DeltaOf(DelayCounter(true, 0, 0), DelayCounter(true, 1, 0));
    assert SampleTimeline.DelayVisits(BEFORE, AFTER, 110) ==
           [SampleTimeline.Visit(AFTER, 100, 110, SampleTimeline.DelayShares(d, 100, 110))];
    assert SampleTimeline.SchedVisits(BEFORE, AFTER, 110) == [];
  }

  lemma InTurn(g: Grid, ws: map<int, Window>, vs: seq<SampleTimeline.Visit>)
    requires g.Valid() && |vs| == 3
    ensures var a := SampleTimeline.Apply(g, ws, 0, vs[0]);
            var b := SampleTimeline.Apply(g, a, 0, vs[1]);
            SampleTimeline.ApplyAll(g, ws, 0, vs) == SampleTimeline.Apply(g, b, 0, vs[2])
  {
    var two := vs[..2];
    var one := two[..1];
    assert one[..0] == [] && one[0] == vs[0] && two[1] == vs[1];
    assert SampleTimeline.ApplyAll(g, ws, 0, one) == SampleTimeline.Apply(g, ws, 0, vs[0]);
    assert SampleTimeline.ApplyAll(g, ws, 0, two) ==
           SampleTimeline.Apply(g, SampleTimeline.ApplyAll(g, ws, 0, one), 0, vs[1]);
  }

  lemma AppliedThree(ws: map<int, Window>, vs: seq<SampleTimeline.Visit>)
    requires One(ws, 0) && |vs| == 3
    requires vs[0].what.DelayShares? && vs[0].what.delay.Comparable()
    requires !vs[1].what.DelayShares? && !vs[2].what.DelayShares?
    requires forall i :: 0 <= i < 3 ==> vs[i].sample.id == SEEN && vs[i].lo == 100 && vs[i].hi == 110
    ensures One(SampleTimeline.ApplyAll(GRID, ws, 0, vs), 1)
  {
    InTurn(GRID, ws, vs);
    var a := SampleTimeline.Apply(GRID, ws, 0, vs[0]);
    VisitsOne(vs[0], ws, 0);
    VisitsOne(vs[1], a, 1);
    VisitsOne(vs[2], SampleTimeline.Apply(GRID, a, 0, vs[1]), 1);
  }

  /** The boundary scan itself is counted in window 1. */
  lemma Counted(s: SampleTimeline.Sampler)
    requires Waiting(s)
    ensures One(SampleTimeline.CountSamples(s, SampleTimeline.RecordScan(s, SECOND_SCAN), [AFTER]), 0)
  {
    GRID.IndexUnique(110, 1);
    var ws := SampleTimeline.RecordScan(s, SECOND_SCAN);
    assert [AFTER][..0] == [];
    assert SampleTimeline.CountSamples(s, ws, [AFTER]) == SampleTimeline.Observation(GRID, ws, 0, 1, AFTER);
  }

  lemma BookedOne(s: SampleTimeline.Sampler)
    requires Waiting(s)
    ensures One(SampleTimeline.Booked(s, SECOND_SCAN).windows, 1)
  {
    Counted(s);
    OneById(AFTER);
    var counted := s.(windows := SampleTimeline.CountSamples(s, SampleTimeline.RecordScan(s, SECOND_SCAN), [AFTER]));
    var current := map[SEEN := AFTER];
    assert SampleTimeline.VisitsFor(BEFORE, current, SECOND_SCAN) == SampleTimeline.GapVisits(BEFORE, AFTER, 110);
    GapHasThree();
    AppliedThree(counted.windows, SampleTimeline.GapVisits(BEFORE, AFTER, 110));
    assert s.previous.Keys == {SEEN} && s.previous[SEEN] == BEFORE;
    assert Any({SEEN}) == SEEN;
    assert {SEEN} - {SEEN} == {};
    assert SampleTimeline.BookAll(counted, {SEEN}, current, SECOND_SCAN) ==
           SampleTimeline.BookOne(counted, SEEN, current, SECOND_SCAN).windows;
  }

  lemma OneRow(stats: map<Identity, Row>)
    requires stats.Keys == {SEEN}
    ensures Rows(TicksFirst, stats) == [stats[SEEN]]
  {
    OrderUnique(TicksFirst, [SEEN], Order(TicksFirst, stats.Keys));
  }

  /** Both the boundary scan and its sample were taken at the boundary. */
  lemma BoundaryReached(s: SampleTimeline.Sampler)
    requires Waiting(s) && s.Valid()
    ensures SampleTimeline.Watermark(s, SECOND_SCAN) == 110
  {
    OneById(AFTER);
    assert SampleTimeline.Ends(s, map[SEEN := AFTER], SECOND_SCAN) == {110};
  }

  lemma AuxiliaryReport(s: SampleTimeline.Sampler)
    requires Waiting(s) && s.Valid()
    ensures var reports := SampleTimeline.Observe(s, SECOND_SCAN).1;
            |reports| == 1 && |reports[0].threads| == 1
            && reports[0].threads[0].id == SEEN && reports[0].threads[0].HasDelays()
  {
    BookedOne(s);
    BoundaryReached(s);
    GRID.IndexUnique(110, 1);
    var ws := SampleTimeline.Booked(s, SECOND_SCAN).windows;
    assert SampleTimeline.Observe(s, SECOND_SCAN).1 == SampleTimeline.Reports(GRID, ws, 0, 1);
    assert SampleTimeline.Reports(GRID, ws, 0, 1)[0] == SampleTimeline.ReportOf(GRID, ws, 0 + 0);
    OneRow(SampleTimeline.WindowAt(ws, 0).stats);
  }

  // ---------------------------------------------------------------- the run

  const EMPTY: Snapshot := Snapshot([], 100, 100, "")

  /** Before the boundary: both rows of events, and the first sample waiting. */
  ghost predicate Poised(h: Lockstep) {
    Paired(h) && Holding(h.ev, {OLDER, NEWER}, NEWER) && Waiting(h.aux) && h.auxiliary == [] && h.events == []
  }

  predicate SeenOnce(reports: seq<Report>) {
    && |reports| == 1 && |reports[0].threads| == 1
    && reports[0].threads[0].id == SEEN && reports[0].threads[0].HasDelays()
  }

  predicate BothRan(reports: seq<Report>) {
    && |reports| == 1 && |reports[0].threads| == 2
    && reports[0].threads[0].id == OLDER && reports[0].threads[1].id == NEWER
  }

  /** Events know two threads, procfs one, and the two reports have been merged. */
  ghost predicate Mixed(h: Lockstep) {
    && BothRan(h.events) && SeenOnce(h.auxiliary) && |h.emitted| == 1
    && h.emitted[0] == MergeReports(h.events[0], h.auxiliary[0]) && SameBounds(h.events[0], h.auxiliary[0])
  }

  /** At the boundary, once the scan is in. */
  ghost predicate Closes(h: Lockstep) {
    && Paired(h) && Hybrid.Ready(h) && Holding(h.ev, {OLDER, NEWER}, NEWER) && h.events == []
    && SeenOnce(h.auxiliary)
  }

  lemma AuxiliaryStored(h: Lockstep)
    requires Poised(h)
    ensures Closes(ObserveAux(h, SECOND_SCAN))
  {
    AuxiliaryReport(h.aux);
    ScanKeeps(h, SECOND_SCAN);
    var reports := SampleTimeline.Observe(h.aux, SECOND_SCAN).1;
    assert ObserveAux(h, SECOND_SCAN).auxiliary == [] + reports == reports;
  }

  lemma EventClosed(h: Lockstep)
    requires h.Valid() && Holding(h.ev, {OLDER, NEWER}, NEWER) && h.events == []
    ensures BothRan(CloseEvents(h, 0).events) && CloseEvents(h, 0).auxiliary == h.auxiliary
  {
    EventReport(h.ev);
    var reports := EventTimeline.Advance(h.ev, 110, 0).1;
    assert CloseEvents(h, 0).events == [] + reports == reports;
  }

  lemma Closed(mid: Lockstep)
    requires Closes(mid)
    ensures Mixed(CloseEvents(mid, 0))
  {
    EventClosed(mid);
    CloseKeeps(mid, 0);
  }

  lemma CrossedBy(h: Lockstep, snap: Snapshot)
    requires h.Valid() && Closes(ObserveAux(h, snap))
    ensures Mixed(Step(h, Boundary(snap, 0)))
  {
    Closed(ObserveAux(h, snap));
    assert Step(h, Boundary(snap, 0)) == CloseEvents(ObserveAux(h, snap), 0);
  }

  lemma Started()
    ensures var h := Start(10, EMPTY, 0, FIRST_SCAN);
            Paired(h) && Holding(h.ev, {}, OLDER) && Waiting(h.aux) && h.auxiliary == [] && h.events == []
  {
    StartPaired(10, EMPTY, 0, FIRST_SCAN);
    AfterFirstScan();
  }

  const RUN: seq<Op> := [SchedulerEvent(FIRST_IN), SchedulerEvent(SECOND_IN), Boundary(SECOND_SCAN, 0)]

  lemma EventsBefore(start: Lockstep)
    requires Paired(start) && Holding(start.ev, {}, OLDER) && Waiting(start.aux)
    requires start.auxiliary == [] && start.events == []
    ensures Poised(Step(Step(start, SchedulerEvent(FIRST_IN)), SchedulerEvent(SECOND_IN)))
  {
    var one := Step(start, SchedulerEvent(FIRST_IN));
    AfterFirst(start.ev);
    EventKeepsPaired(start, FIRST_IN);
    AfterSecond(one.ev);
    EventKeepsPaired(one, SECOND_IN);
  }

  lemma RunIs(start: Lockstep)
    requires start.Valid()
    ensures Exec(start, RUN) ==
            Step(Step(Step(start, SchedulerEvent(FIRST_IN)), SchedulerEvent(SECOND_IN)), Boundary(SECOND_SCAN, 0))
  {
    assert RUN[..2][..1][..0] == [];
    assert Exec(start, RUN[..2][..1]) == Step(start, RUN[0]);
    assert Exec(start, RUN[..2]) == Step(Step(start, RUN[0]), RUN[1]);
  }

  /** The older thread's row has the delays that were counted for the number, the newer one's has none of
      them, and the links are not a join. */
  ghost predicate DelaysWithOlder(h: Lockstep) {
    && |h.emitted| == 1 && |h.events| == 1 && |h.auxiliary| == 1
    && |h.emitted[0].threads| == 2 && |h.events[0].threads| == 2
    && h.emitted[0].threads[0].id == OLDER && h.emitted[0].threads[0].HasDelays()
    && h.emitted[0].threads[1].id == NEWER && h.emitted[0].threads[1] == h.events[0].threads[1]
    && !IsJoin(h.events[0].threads, h.auxiliary[0].threads, Links(h.events[0].threads, h.auxiliary[0].threads))
  }

  lemma MixedMeans(h: Lockstep)
    requires Mixed(h)
    ensures DelaysWithOlder(h)
  {
    var events, aux := h.events[0].threads, h.auxiliary[0].threads;
    assert events == [events[0], events[1]] && aux == [aux[0]];
    ReuseWithinTickBreaksJoin(events[0], events[1], aux[0], 7, 5, 50, 51);
  }

  /** A run of two events and one boundary, with a scan before and one at the boundary. */
  lemma DelaysGoToTheOlder()
    ensures DelaysWithOlder(Exec(Start(10, EMPTY, 0, FIRST_SCAN), RUN))
  {
    var start := Start(10, EMPTY, 0, FIRST_SCAN);
    Started();
    EventsBefore(start);
    var poised := Step(Step(start, SchedulerEvent(FIRST_IN)), SchedulerEvent(SECOND_IN));
    AuxiliaryStored(poised);
    CrossedBy(poised, SECOND_SCAN);
    RunIs(start);
    MixedMeans(Step(poised, Boundary(SECOND_SCAN, 0)));
  }
}
