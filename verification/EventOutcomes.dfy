/** What becomes of one event, told by the fields of the event and of its thread's track. */
module EventOutcomes {
  import opened Windows
  import opened Model
  import opened EventTimeline
  import opened Lifetimes
  import opened EventLedger
  import opened EventRows
  import opened EventInvariant
  import opened EventObserveStep

  /** The event contradicts a start time that its thread's track knows. */
  predicate Contradicts(t: Track, e: Event) {
    || (t.id.ticks != 0 && e.ticks != 0 && t.id.ticks != e.ticks)
    || (t.id.ns != 0 && e.ns != 0 && t.id.ns != e.ns)
  }

  /** Well formed, and not behind the watermark of an earlier boundary. */
  predicate Heard(s: Timeline, e: Event) {
    e.timestamp != 0 && 0 < e.tid && (s.advanced ==> s.watermark <= e.timestamp)
  }

  /** A new lifetime begins exactly for an unknown thread number, or one that an event contradicts. */
  lemma NewLifeWhen(r: Run, e: Event)
    requires Inv(r, r.s.watermark) && Heard(r.s, e)
    ensures var isNew := e.tid !in r.s.tracks || Contradicts(r.s.tracks[e.tid], e);
            |RunObserve(r, e).lives| == |r.lives| + if isNew then 1 else 0
    ensures e.tid in RunObserve(r, e).holder
    ensures e.tid in r.s.tracks && !Contradicts(r.s.tracks[e.tid], e) ==>
              RunObserve(r, e).holder[e.tid] == r.holder[e.tid]
  {
  }

  /** An event joins its lifetime's deeds exactly when it is not older than the seed, nor than the last event,
      nor, from the origin on, than the time its track was carried to. */
  predicate Joins(origin: int, t: Track, e: Event) {
    t.seedAt <= e.timestamp && t.lastEvent <= e.timestamp && (origin <= e.timestamp ==> t.since <= e.timestamp)
  }

  lemma JoinsWhen(r: Run, e: Event)
    requires Inv(r, r.s.watermark) && Heard(r.s, e) && e.tid in r.s.tracks && !Contradicts(r.s.tracks[e.tid], e)
    ensures var n, q := r.holder[e.tid], RunObserve(r, e);
      && q.lives[n].deeds == if Joins(r.s.grid.origin, r.s.tracks[e.tid], e)
                             then r.lives[n].deeds + [Deed(e.timestamp, e.kind, e.state)] else r.lives[n].deeds
  {
    JoinsLife(r, e);
    assert RunObserve(r, e).lives[r.holder[e.tid]] == LifeAfter(r, e);
  }

  lemma JoinsLife(r: Run, e: Event)
    requires Held(r) && e.tid in r.s.tracks && !Contradicts(r.s.tracks[e.tid], e)
    ensures LifeOf(r, e) == r.holder[e.tid]
    ensures LifeAfter(r, e).deeds == if Joins(r.s.grid.origin, r.s.tracks[e.tid], e)
                                     then r.lives[r.holder[e.tid]].deeds + [Deed(e.timestamp, e.kind, e.state)]
                                     else r.lives[r.holder[e.tid]].deeds
  {
  }

  /** A new lifetime's first event always joins it; it begins at that event, or at a later origin. */
  lemma FirstJoins(r: Run, e: Event)
    requires Inv(r, r.s.watermark) && Heard(r.s, e)
    requires e.tid !in r.s.tracks || Contradicts(r.s.tracks[e.tid], e)
    ensures var n, q := |r.lives|, RunObserve(r, e);
      && |q.lives| == n + 1 && q.holder[e.tid] == n && q.lives[n].deeds == [Deed(e.timestamp, e.kind, e.state)]
      && q.lives[n].born == Max(r.s.grid.origin, e.timestamp) && q.lives[n].seed == SchedState.Unknown
  {
  }

  /** A track as an event introduces its thread. */
  predicate Introduced(k: Track, e: Event) {
    k.id == Identity(e.tid, e.ticks, e.ns) && k.pid == e.pid && k.comm == e.comm && k.seedAt == e.timestamp
  }

  /** A track that knew its thread: the event's word where it has one, the track's own otherwise. */
  predicate Informed(t: Track, k: Track, e: Event) {
    && k.id.ticks == (if e.ticks != 0 then e.ticks else t.id.ticks)
    && k.id.ns == (if e.ns != 0 then e.ns else t.id.ns)
    && k.pid == (if 0 < e.pid then e.pid else t.pid)
    && k.comm == (if e.comm != "" then e.comm else t.comm) && k.seedAt == t.seedAt && k.id.tid == t.id.tid
  }

  lemma KeepsKnowledge(origin: int, t: Track, e: Event)
    ensures var k := TrackAfter(origin, t, e);
            k.id == t.id && k.pid == t.pid && k.comm == t.comm && k.seedAt == t.seedAt
  {
  }

  lemma TrackLearns(s: Timeline, e: Event)
    requires s.Valid() && Heard(s, e)
    ensures var q := EventTimeline.Observe(s, e);
      e.tid in q.tracks && if e.tid !in s.tracks || Contradicts(s.tracks[e.tid], e)
                           then Introduced(q.tracks[e.tid], e) else Informed(s.tracks[e.tid], q.tracks[e.tid], e)
  {
    ObservedTrack(s, e);
    KeepsKnowledge(s.grid.origin, TrackOf(s, e), e);
  }

  lemma ObservedTrack(s: Timeline, e: Event)
    requires s.Valid() && Heard(s, e)
    ensures var q := EventTimeline.Observe(s, e);
            e.tid in q.tracks && q.tracks[e.tid] == TrackAfter(s.grid.origin, TrackOf(s, e), e)
  {
    ObserveFrame(s, e);
  }

  // ---------------------------------------------------------------- races

  function One(b: bool): nat { if b then 1 else 0 }

  function Races(s: Timeline, w: int): int { WindowAt(s.windows, w).quality.events.races }

  /** Every contradicted start time counts as a race, in the event's own window or the first open one, and so
      does an event before the origin that an earlier one has overtaken, in the first open one. Nothing else does. */
  lemma RacesCounted(s: Timeline, e: Event, w: nat)
    requires s.Valid() && s.grid.origin <= s.watermark
    ensures var known := Heard(s, e) && e.tid in s.tracks;
            var contradicted := known && Contradicts(s.tracks[e.tid], e);
            var overtaken := known && !contradicted && s.tracks[e.tid].seedAt <= e.timestamp
                             && e.timestamp < s.grid.origin && e.timestamp < s.tracks[e.tid].lastEvent;
            Races(EventTimeline.Observe(s, e), w) ==
            Races(s, w) + One(contradicted && w == Max(s.nextWindow, s.grid.Index(e.timestamp)))
                        + One(overtaken && w == s.nextWindow)
  {
    if Heard(s, e) {
      HandoverRaces(s, e, w);
      MetRaces(s.(windows := AfterHandover(s, e)), TrackOf(s, e), e, w);
    }
  }

  lemma HandoverRaces(s: Timeline, e: Event, w: nat)
    requires s.grid.Valid()
    ensures Races(s.(windows := AfterHandover(s, e)), w) ==
            Races(s, w) + One(e.tid in s.tracks && Contradicts(s.tracks[e.tid], e)
                              && w == Max(s.nextWindow, s.grid.Index(e.timestamp)))
  {
  }

  lemma MetRaces(s: Timeline, t: Track, e: Event, w: nat)
    requires s.grid.Valid()
    ensures Races(s.(windows := WindowsAfter(s, t, e)), w) ==
            Races(s, w) + One(t.seedAt <= e.timestamp && e.timestamp < s.grid.origin && e.timestamp < t.lastEvent
                              && w == s.nextWindow)
  {
    BookAt(s.grid, s.windows, s.nextWindow, t, t.since, e.timestamp, w);
  }

  // ---------------------------------------------------------------- reports

  /** A report names the method, the losses told to it and the calibration, and admits missed changes exactly
      when it counts a loss, a late event, an incomplete wakeup or a race. */
  predicate Tells(q: Quality, lost: nat, calibration: int) {
    && q.events.lost == lost && q.events.calibration == calibration && q.events.timeline
    && q.samplingMethod == "ebpf_sched_events"
    && (q.missed <==> 0 < lost || 0 < q.events.late || 0 < q.events.incomplete || 0 < q.events.races)
  }

  lemma ReportTells(s: Timeline, w: nat, lost: nat)
    ensures Tells(ReportOf(s, w, lost).quality, lost, s.calibration)
  {
  }

  lemma CutState(r: Run, mark: int)
    requires Inv(r, r.s.watermark)
    ensures Held(r.(s := Mark(r.s, mark)))
    ensures var cut := RunCutAll(r.(s := Mark(r.s, mark)), r.s.tracks.Keys, mark);
      && cut.s.grid.Valid() && cut.s.nextWindow == |cut.emitted| == |r.emitted|
      && cut.emitted == r.emitted && cut.s.calibration == r.s.calibration
  {
    var marked := r.(s := Mark(r.s, mark));
    CutAllHeld(marked, r.s.tracks.Keys, mark);
    CutEmitted(marked, r.s.tracks.Keys, mark);
  }

  lemma CloseEmits(r: Run, mark: int, lost: nat, w: nat)
    requires r.s.grid.Valid() && r.s.nextWindow == |r.emitted| <= w < |RunClose(r, mark, lost).emitted|
    ensures RunClose(r, mark, lost).emitted[w] == ReportOf(r.s, w, lost)
  {
    var reports := Reports(r.s, NextOpen(r.s, mark), lost);
    assert RunClose(r, mark, lost).emitted == r.emitted + reports;
  }

  lemma ReportsTell(r: Run, mark: int, lost: nat, w: nat)
    requires Inv(r, r.s.watermark) && |r.emitted| <= w < |RunAdvance(r, mark, lost).emitted|
    ensures Tells(RunAdvance(r, mark, lost).emitted[w].quality, lost, r.s.calibration)
  {
    CutState(r, mark);
    var cut := RunCutAll(r.(s := Mark(r.s, mark)), r.s.tracks.Keys, mark);
    CloseEmits(cut, mark, lost, w);
    ReportTells(cut.s, w, lost);
  }

  lemma {:induction false} CutEmitted(r: Run, tids: set<int>, mark: int)
    requires Held(r) && tids <= r.s.tracks.Keys
    ensures RunCutAll(r, tids, mark).emitted == r.emitted
    decreases |tids|
  {
    if tids != {} {
      var tid := Any(tids);
      CutKeeps(r.s, tid, mark);
      CutEmitted(RunCut(r, tid, mark), tids - {tid}, mark);
    }
  }

  /** A boundary closes the windows that end by it, unless it precedes the origin. */
  lemma ClosesThrough(r: Run, mark: int, lost: nat)
    requires Inv(r, r.s.watermark)
    ensures var q, g := RunAdvance(r, mark, lost), r.s.grid;
            |q.emitted| == if mark < g.origin then |r.emitted| else Max(|r.emitted|, g.Index(mark))
  {
    if r.s.grid.origin <= mark {
      var marked := r.(s := Mark(r.s, mark));
      CutAllHeld(marked, r.s.tracks.Keys, mark);
      CutEmitted(marked, r.s.tracks.Keys, mark);
    }
  }

  // ---------------------------------------------------------------- rows

  /** The row names its thread as the track does, and keeps the process it started with. */
  predicate NamedAs(row: Row, t: Track, win: Window) {
    && row.id == t.id
    && row.comm == (if t.comm != "" then t.comm else if t.id in win.stats then win.stats[t.id].comm else "")
    && row.pid == if t.id in win.stats then win.stats[t.id].pid else t.pid
  }

  ghost predicate Keyed(win: Window) { forall id :: id in win.stats ==> win.stats[id].id == id }

  lemma RowForNamed(g: Grid, w: int, win: Window, t: Track)
    requires Keyed(win)
    ensures NamedAs(RowFor(g, w, win, t), t, win)
  {
  }

  /** What a track writes to a window, be it time or an event, stands in a row with its thread's name. */
  lemma WritesNamed(g: Grid, w: int, win: Window, t: Track, delta: int, e: Event)
    requires Keyed(win)
    ensures var q := Post(g, w, win, t, delta); Keyed(q) && t.id in q.stats && NamedAs(q.stats[t.id], t, win)
    ensures var q := Recorded(g, w, win, t, e); Keyed(q) && t.id in q.stats && NamedAs(q.stats[t.id], t, win)
  {
    RowForNamed(g, w, win, t);
  }

  lemma HandoverStats(s: Timeline, e: Event, w: int)
    requires s.grid.Valid()
    ensures WindowAt(AfterHandover(s, e), w).stats == WindowAt(s.windows, w).stats
  {
    HandoverWindow(s, e, w, Events);
  }

  lemma AppliedNamed(s: Timeline, e: Event)
    requires s.grid.Valid() && FateOf(s, e).Applied? && Keyed(WindowAt(s.windows, s.grid.Index(e.timestamp)))
    ensures var w, t := s.grid.Index(e.timestamp), TrackOf(s, e);
            var win, q := WindowAt(s.windows, w), WindowAt(EventTimeline.Observe(s, e).windows, w);
            t.id in q.stats && NamedAs(q.stats[t.id], t, win)
  {
    var w, t := s.grid.Index(e.timestamp), TrackOf(s, e);
    HandoverStats(s, e, w);
    AppliedWindow(s, e, w);
    WritesNamed(s.grid, w, WindowAt(AfterHandover(s, e), w), t, s.grid.Overlap(t.since, e.timestamp, w), e);
    WritesNamed(s.grid, w, Posted(s, e, w), t, 0, e);
  }

  lemma RowsKeyed(win: Window, start: int, end: int)
    requires RowsOk(win, start, end)
    ensures Keyed(win)
  {
  }

  /** An applied event leaves, in its window, a row of its thread's name. */
  lemma AppliedRowNamed(r: Run, e: Event)
    requires Inv(r, r.s.watermark) && FateOf(r.s, e).Applied?
    ensures var w, t := r.s.grid.Index(e.timestamp), TrackOf(r.s, e);
            var win, q := WindowAt(r.s.windows, w), WindowAt(EventTimeline.Observe(r.s, e).windows, w);
            t.id in q.stats && NamedAs(q.stats[t.id], t, win)
  {
    var w := r.s.grid.Index(e.timestamp);
    AppliedIsOpen(r, e);
    assert RowsOk(WindowOf(r, w), r.s.grid.Start(w), r.s.grid.End(w));
    RowsKeyed(WindowOf(r, w), r.s.grid.Start(w), r.s.grid.End(w));
    AppliedNamed(r.s, e);
  }
}
