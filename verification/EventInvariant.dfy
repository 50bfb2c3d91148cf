/** What holds after every step of every run of the event accumulator. */
module EventInvariant {
  import opened Windows
  import opened Model
  import opened RowOrder
  import opened EventTimeline
  import opened Lifetimes
  import opened EventLedger
  import opened EventRows

  /** Window `w` of the run, emitted or pending. */
  function WindowOf(r: Run, w: nat): Window {
    if w < |r.closed| then r.closed[w] else WindowAt(r.s.windows, w)
  }

  ghost predicate Shape(r: Run, low: int) {
    && Held(r)
    && |r.closed| == r.s.nextWindow == |r.emitted|
    && (forall w :: w in r.s.windows ==> r.s.nextWindow <= w)
    && r.s.grid.origin <= low <= r.s.watermark
    && r.s.grid.Start(r.s.nextWindow) <= low
    && (!r.s.advanced ==> r.s.watermark == r.s.grid.origin && r.s.nextWindow == 0)
  }

  /** A current track has been carried to `low` unless it died. */
  predicate Carried(s: Timeline, t: Track, low: int) {
    && (t.alive ==> low <= t.since)
    && (!s.advanced ==> t.since == s.grid.origin || t.since <= t.lastEvent)
  }

  ghost predicate LivesWell(lives: seq<Life>, origin: int) {
    forall n :: 0 <= n < |lives| ==> lives[n].Ok(origin)
  }

  ghost predicate HoldersOk(r: Run, low: int)
    requires Held(r)
  {
    forall tid :: tid in r.holder ==>
      r.lives[r.holder[tid]].track == r.s.tracks[tid] && Carried(r.s, r.s.tracks[tid], low)
  }

  /** Only known lifetimes own books. */
  ghost predicate Owned(r: Run) {
    && (forall x :: x in r.segs ==> x.life < |r.lives|)
    && (forall x :: x in r.entries && x.Counted? ==> x.life < |r.lives|)
  }

  ghost predicate LivesOk(r: Run, low: int)
    requires Held(r)
  {
    LivesWell(r.lives, r.s.grid.origin) && HoldersOk(r, low) && Owned(r)
  }

  /** The living books of lifetime `n` match its replayed timeline in window `w`. */
  predicate LifeExact(g: Grid, segs: seq<Seg>, l: Life, n: nat, w: int, s: SchedState) {
    Booked(g, segs, Living(n), w, s) == l.Measured(Max(l.born, g.Start(w)), Min(l.track.since, g.End(w)), s)
  }

  ghost predicate Exact(r: Run) {
    forall n: nat, w: nat, s | n < |r.lives| :: LifeExact(r.s.grid, r.segs, r.lives[n], n, w, s)
  }

  predicate TimeAgrees(r: Run, w: nat, id: Identity, s: SchedState) {
    TimeOf(WindowOf(r, w), id, s) == Booked(r.s.grid, r.segs, OfRow(id), w, s)
  }

  predicate MetricAgrees(r: Run, w: nat, id: Identity, m: Metric) {
    && MetricOf(WindowOf(r, w), id, m) == Sum(r.entries, InRow(w, id), m)
    && (Reported(m) ==> WindowMetric(WindowOf(r, w), m) == Sum(r.entries, InWindow(w), m))
    && LongestOf(WindowOf(r, w), id) == Longest(r.entries, InRow(w, id))
  }

  /** Every row and window counter is the sum of what was booked to it. */
  ghost predicate Reconciled(r: Run) {
    && (forall w: nat, id, s :: TimeAgrees(r, w, id, s))
    && (forall w: nat, id, m :: MetricAgrees(r, w, id, m))
    && (forall w: nat :: RowsOk(WindowOf(r, w), r.s.grid.Start(w), r.s.grid.End(w)))
  }

  /** Time a pending wakeup has waited so far. */
  function Waiting(t: Track): int { if t.wakeupAt != 0 then t.since - t.wakeupAt else 0 }

  predicate LatencyCovered(entries: seq<Entry>, l: Life, n: nat) {
    l.NothingAfterDeath() ==>
      Sum(entries, ByLife(n), LatencyTotal) + Waiting(l.track) <= l.Measured(l.born, l.track.since, Runnable)
  }

  ghost predicate Covered(r: Run) {
    forall n: nat | n < |r.lives| :: LatencyCovered(r.entries, r.lives[n], n)
  }

  /** Time is booked to a dead thread only when an event follows its death. */
  ghost predicate DeadBooks(r: Run)
    requires Owned(r)
  {
    forall x :: x in r.segs && !x.alive ==> !r.lives[x.life].NothingAfterDeath()
  }

  /** A report tells what its window held when it closed. */
  predicate Publishes(k: Report, win: Window, start: int, end: int) {
    var q, p := k.quality.events, win.quality.events;
    && k.start == start && k.end == end
    && q == p.(timeline := true, lost := q.lost, calibration := q.calibration)
    && (k.quality.missed <==> 0 < q.lost || 0 < p.late || 0 < p.incomplete || 0 < p.races)
  }

  ghost predicate Published(r: Run)
    requires |r.closed| == |r.emitted|
  {
    forall w :: 0 <= w < |r.emitted| ==>
      && Publishes(r.emitted[w], r.closed[w], r.s.grid.Start(w), r.s.grid.End(w))
      && r.emitted[w].threads == Rows(NanosecondsFirst, r.closed[w].stats)
  }

  ghost predicate Inv(r: Run, low: int) {
    Shape(r, low) && LivesOk(r, low) && Exact(r) && Reconciled(r) && Covered(r) && DeadBooks(r) && Published(r)
  }

  // ---------------------------------------------------------------- one event, one lifetime

  /** Accepting an event keeps a lifetime well formed. */
  lemma LifeAccepts(origin: int, l: Life, e: Event, measure: bool, since: int)
    requires l.Ok(origin)
    requires e.timestamp != 0 && l.track.lastEvent <= e.timestamp
    requires l.track.since <= since && e.timestamp <= since <= Max(origin, e.timestamp)
    requires measure ==> origin <= e.timestamp
    ensures var d := Deed(e.timestamp, e.kind, e.state);
            l.(track := Transition(origin, l.track, e, measure).(lastEvent := e.timestamp, since := since),
               deeds := l.deeds + [d]).Ok(origin)
  {
    var d := Deed(e.timestamp, e.kind, e.state);
    var k := l.(track := Transition(origin, l.track, e, measure).(lastEvent := e.timestamp, since := since),
                deeds := l.deeds + [d]);
    Settled(l.seed, l.deeds, l.track.since, since);
    assert k.deeds[..|l.deeds|] == l.deeds;
    assert k.At(since) == After(l.Final(), d) == k.Final();
    if k.NothingAfterDeath() && !k.track.alive {
      assert l.NothingAfterDeath() by {
        forall i | 0 <= i < |l.deeds| - 1 ensures !l.deeds[i].IsDeath() { assert k.deeds[i] == l.deeds[i]; }
      }
      if l.deeds != [] { assert !k.deeds[|l.deeds| - 1].IsDeath(); }
    }
  }

  /** Learning more about its identity keeps a lifetime well formed. */
  lemma CompleteOk(origin: int, l: Life, e: Event)
    requires l.Ok(origin)
    ensures l.(track := Complete(l.track, e)).Ok(origin)
  {
    assert l.(track := Complete(l.track, e)).At(l.track.since) == l.At(l.track.since);
  }

  lemma FirstEventOk(origin: int, e: Event)
    ensures Life(Max(origin, e.timestamp), SchedState.Unknown, [], NewTrack(origin, e)).Ok(origin)
  {
  }

  lemma LifeBeforeOk(r: Run, e: Event)
    requires Shape(r, r.s.watermark) && LivesOk(r, r.s.watermark)
    requires !Ignored(e) && !Expired(r.s, e)
    ensures LifeBefore(r, e).Ok(r.s.grid.origin)
    ensures Carried(r.s, TrackOf(r.s, e), r.s.watermark)
    ensures Judge(r.s.grid.origin, TrackOf(r.s, e), e).Early? ==> TrackOf(r.s, e).since == r.s.grid.origin
  {
    if IsNewThread(r.s, e) {
      FirstEventOk(r.s.grid.origin, e);
    } else {
      assert e.tid in r.holder;
      CompleteOk(r.s.grid.origin, r.lives[r.holder[e.tid]], e);
    }
  }

  lemma CarriedAfter(s: Timeline, t: Track, e: Event)
    requires Carried(s, t, s.watermark) && !Expired(s, e) && s.grid.origin <= t.since
    requires s.grid.origin <= s.watermark && (!s.advanced ==> s.watermark == s.grid.origin)
    requires Judge(s.grid.origin, t, e).Early? ==> t.since == s.grid.origin
    ensures Carried(s, TrackAfter(s.grid.origin, t, e), s.watermark)
  {
  }

  /** The event's effect on a lifetime, by fate. */
  lemma LifeAfterShape(r: Run, e: Event)
    ensures var l, o := LifeBefore(r, e), r.s.grid.origin;
            var d := Deed(e.timestamp, e.kind, e.state);
            && l.track == TrackOf(r.s, e)
            && LifeAfter(r, e) ==
               match Judge(o, l.track, e)
               case Early =>
                 l.(track := Transition(o, l.track, e, false).(lastEvent := e.timestamp, since := o),
                    deeds := l.deeds + [d])
               case Applied =>
                 l.(track := Transition(o, l.track, e, true).(lastEvent := e.timestamp, since := e.timestamp),
                    deeds := l.deeds + [d])
               case _ => l
  {
  }

  lemma LifeAfterOk(r: Run, e: Event)
    requires Shape(r, r.s.watermark) && LivesOk(r, r.s.watermark)
    requires !Ignored(e) && !Expired(r.s, e)
    ensures LifeAfter(r, e).Ok(r.s.grid.origin)
  {
    LifeBeforeOk(r, e);
    LifeAfterShape(r, e);
    var l, o := LifeBefore(r, e), r.s.grid.origin;
    var f := Judge(o, l.track, e);
    if f.Early? {
      LifeAccepts(o, l, e, false, o);
    } else if f.Applied? {
      LifeAccepts(o, l, e, true, e.timestamp);
    }
  }

  /** A living segment starts in an open window, so nothing of it is skipped. */
  lemma NothingSkipped(g: Grid, floor: nat, lo: int, hi: int, w: int)
    requires g.Valid() && g.Start(floor) <= lo && w < floor
    ensures g.Overlap(lo, hi, w) == 0
  {
    g.Ordered(w, floor);
  }

  /** A row grows with the books: one more segment. */
  lemma TimeStep(r: Run, q: Run, x: Seg, w: nat, id: Identity, s: SchedState)
    requires TimeAgrees(r, w, id, s) && q.closed == r.closed && q.s.grid == r.s.grid && x.floor == |r.closed|
    requires q.segs == r.segs + [x]
    requires TimeOf(WindowAt(q.s.windows, w), id, s) == TimeOf(WindowAt(r.s.windows, w), id, s)
             + if x.id == id && x.state == s then Share(r.s.grid, x, w) else 0
    ensures TimeAgrees(q, w, id, s)
  {
    BookedMore(r.s.grid, r.segs, x, OfRow(id), w, s);
  }

  /** A row's counters grow with the entries: one more event. */
  lemma MetricStep(r: Run, q: Run, x: Entry, w: nat, id: Identity, m: Metric)
    requires MetricAgrees(r, w, id, m) && q.closed == r.closed && q.entries == r.entries + [x]
    requires !x.Uncounted? ==> |r.closed| <= x.window
    requires var v, u := WindowAt(r.s.windows, w), WindowAt(q.s.windows, w);
             |r.closed| <= w ==>
               && MetricOf(u, id, m) == MetricOf(v, id, m) + (if Covers(InRow(w, id), x) then Score(x, m) else 0)
               && (Reported(m) ==>
                     WindowMetric(u, m) == WindowMetric(v, m) + if Covers(InWindow(w), x) then Score(x, m) else 0)
               && LongestOf(u, id) ==
                  if Covers(InRow(w, id), x) then Max(LongestOf(v, id), x.latency) else LongestOf(v, id)
    ensures MetricAgrees(q, w, id, m)
  {
    SumMore(r.entries, x, InRow(w, id), m);
    SumMore(r.entries, x, InWindow(w), m);
    LongestMore(r.entries, x, InRow(w, id));
  }
}
