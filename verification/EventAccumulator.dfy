/** `EventAccumulator` itself: its maps and counters are updated in place
    (internal/collector/event_accumulator.go). */
module EventAccumulatorClass {
  import opened Windows
  import opened Model
  import opened RowOrder
  import opened RowSort
  import opened Snapshots
  import opened EventTimeline
  import opened EventSeeds

  class EventAccumulator {
    const grid: Grid
    var tracks: map<int, Track>
    var windows: map<int, Window>
    var nextWindow: nat
    var watermark: int
    var advanced: bool
    var calibration: int

    ghost function State(): Timeline
      reads this
    {
      Timeline(grid, tracks, windows, nextWindow, watermark, advanced, calibration)
    }

    ghost predicate Valid()
      reads this
    {
      State().Valid()
    }

    constructor (interval: int, initial: Snapshot, now: int)
      requires 0 < interval && now != 0
      ensures Valid() && State() == Initial(interval, Normalize(initial, now), 0)
      ensures SeedsOf(tracks, initial.samples, grid.origin)
      ensures grid.interval == interval && grid.origin == watermark == Normalize(initial, now).finishedAt
      ensures windows == map[] && nextWindow == 0 && !advanced
    {
      hide SeedsOf;
      var scan := Normalize(initial, now);
      var seeded: map<int, Track> := map[];
      for i := 0 to |scan.samples|
        invariant seeded == SeedTracks(scan.finishedAt, scan.samples[..i])
      {
        assert scan.samples[..i + 1][..i] == scan.samples[..i];
        seeded := seeded[scan.samples[i].id.tid := SeedTrack(scan.finishedAt, scan.samples[i])];
      }
      assert scan.samples[..|scan.samples|] == scan.samples;
      ScanSeeds(scan.finishedAt, scan.samples);
      grid := Grid(scan.finishedAt, interval);
      tracks, windows := seeded, map[];
      nextWindow, watermark, advanced, calibration := 0, scan.finishedAt, false, 0;
    }

    method SetClockCalibrationUncertainty(uncertainty: int)
      modifies this`calibration
      ensures calibration == if 0 < uncertainty then uncertainty else old(calibration)
    {
      if 0 < uncertainty {
        calibration := uncertainty;
      }
    }

    function NextBoundary(): int
      reads this
    {
      grid.End(nextWindow)
    }

    method Observe(e: Event)
      requires Valid()
      modifies this`tracks, this`windows
      ensures Valid() && State() == EventTimeline.Observe(old(State()), e)
    {
      if e.timestamp == 0 || e.tid <= 0 {
        return;
      }
      if advanced && e.timestamp < watermark {
        windows := RecordLate(windows, nextWindow);
        return;
      }
      var track;
      if e.tid in tracks && IdentityChanged(tracks[e.tid], e) {
        windows := RecordRace(grid, windows, nextWindow, e.timestamp);
        track := NewTrack(grid.origin, e);
      } else if e.tid !in tracks {
        track := NewTrack(grid.origin, e);
      } else {
        track := Complete(tracks[e.tid], e);
      }
      TrackOfTid(old(State()), e);
      Settle(track, e);
    }

    /** The rest of `Observe`, once the event's track is known. */
    method Settle(track: Track, e: Event)
      requires Valid() && track.id.tid == e.tid
      modifies this`tracks, this`windows
      ensures tracks == old(tracks)[e.tid := TrackAfter(grid.origin, track, e)]
      ensures windows == WindowsAfter(old(State()), track, e)
    {
      ghost var fate := Judge(grid.origin, track, e);
      tracks := tracks[e.tid := track];
      if e.timestamp < track.seedAt {
        assert fate.BeforeSeed?;
        return;
      }
      if e.timestamp < grid.origin {
        if e.timestamp < track.lastEvent {
          assert fate.Raced?;
          windows := RecordRace(grid, windows, nextWindow, grid.origin);
          return;
        }
        assert fate.Early?;
        var moved := Transition(grid.origin, track, e, false);
        tracks := tracks[e.tid := moved.(lastEvent := e.timestamp, since := grid.origin)];
        return;
      }
      if e.timestamp < track.since || e.timestamp < track.lastEvent {
        assert fate.Late?;
        windows := RecordLate(windows, nextWindow);
        return;
      }
      Accept(track, e);
    }

    /** The end of `Observe`, for an event in its place. */
    method Accept(track: Track, e: Event)
      requires Valid() && track.id.tid == e.tid && Judge(grid.origin, track, e).Applied?
      modifies this`tracks, this`windows
      ensures tracks == old(tracks)[e.tid := TrackAfter(grid.origin, track, e)]
      ensures windows == WindowsAfter(old(State()), track, e)
    {
      AddTrackSegment(track, track.since, e.timestamp);
      windows := RecordEvent(grid, windows, track, e);
      var moved := Transition(grid.origin, track, e, true);
      tracks := tracks[e.tid := moved.(lastEvent := e.timestamp, since := e.timestamp)];
    }

    /** Walks the windows between two instants, cutting at each boundary. */
    method AddTrackSegment(t: Track, lo: int, hi: int)
      requires Valid()
      modifies this`windows
      ensures windows == Book(grid, old(windows), nextWindow, t, lo, hi)
    {
      ghost var before, first := windows, Max(lo, grid.origin);
      var start := Max(lo, grid.origin);
      BookNothing(grid, before, nextWindow, t, first);
      while start < hi
        invariant first <= start
        invariant start == first || start == hi || (start < hi && start == grid.Start(grid.Index(start)))
        invariant windows == Book(grid, before, nextWindow, t, first, start)
        decreases hi - start
      {
        var index := grid.Index(start);
        var end := Min(hi, grid.End(index));
        BookStep(grid, before, nextWindow, t, first, start, end);
        if nextWindow <= index {
          windows := windows[index := Post(grid, index, WindowAt(windows, index), t, end - start)];
        }
        grid.NextBoundary(start);
        start := end;
      }
      BookFrom(grid, before, nextWindow, t, lo, hi, start);
    }

    method Advance(mark: int, lost: nat) returns (reports: seq<Report>)
      requires Valid()
      modifies this`tracks, this`windows, this`nextWindow, this`watermark, this`advanced
      ensures Valid() && (State(), reports) == EventTimeline.Advance(old(State()), mark, lost)
    {
      if mark < grid.origin {
        return [];
      }
      if watermark < mark {
        watermark := mark;
      }
      advanced := true;
      CutTracks(mark);
      reports := CloseWindows(mark, lost);
    }

    /** Books every live track up to the watermark, in any order of the map. */
    method CutTracks(mark: int)
      requires Valid()
      modifies this`tracks, this`windows
      ensures Valid() && State() == CutAll(old(State()), old(tracks.Keys), mark)
    {
      var todo := tracks.Keys;
      while todo != {}
        invariant Valid() && todo <= tracks.Keys
        invariant CutAll(State(), todo, mark) == CutAll(old(State()), old(tracks.Keys), mark)
      {
        var tid :| tid in todo;
        ghost var before := State();
        AnyTrackFirst(before, todo, tid, mark);
        CutKeeps(before, tid, mark);
        var t := tracks[tid];
        if t.alive && t.since < mark {
          AddTrackSegment(t, t.since, mark);
          tracks := tracks[tid := t.(since := mark)];
        }
        assert State() == Cut(before, tid, mark);
        todo := todo - {tid};
      }
    }

    /** Emits and drops the windows that end by the watermark. */
    method CloseWindows(mark: int, lost: nat) returns (reports: seq<Report>)
      requires Valid() && grid.origin <= mark
      modifies this`windows, this`nextWindow
      ensures nextWindow == NextOpen(old(State()), mark)
      ensures windows == Pending(old(windows), old(nextWindow), nextWindow)
      ensures reports == Reports(old(State()), nextWindow, lost)
    {
      ghost var before := State();
      reports := [];
      while NextBoundary() <= mark
        invariant before.nextWindow <= nextWindow <= NextOpen(before, mark)
        invariant windows == Pending(before.windows, before.nextWindow, nextWindow)
        invariant reports == Reports(before, nextWindow, lost)
        decreases NextOpen(before, mark) - nextWindow
      {
        grid.Ordered(grid.Index(mark), nextWindow);
        var report := MakeReport(lost);
        OneMoreReport(before, nextWindow, lost);
        reports := reports + [report];
        windows := windows - {nextWindow};
        nextWindow := nextWindow + 1;
      }
      grid.Ordered(nextWindow, grid.Index(mark));
    }

    method MakeReport(lost: nat) returns (report: Report)
      requires Valid()
      ensures report == ReportOf(State(), nextWindow, lost)
    {
      var win := WindowAt(windows, nextWindow);
      var q := win.quality.events;
      var threads := SortRows(NanosecondsFirst, win.stats);
      var quality := win.quality.(samplingMethod := METHOD,
                                  missed := 0 < lost || 0 < q.late || 0 < q.incomplete || 0 < q.races,
                                  events := q.(timeline := true, lost := lost, calibration := calibration));
      report := Report(grid.Start(nextWindow), NextBoundary(), threads, quality);
    }
  }

  /** One turn of the loop of `CloseWindows`. */
  lemma OneMoreReport(s: Timeline, n: nat, lost: nat)
    requires s.nextWindow <= n
    ensures var now := s.(windows := Pending(s.windows, s.nextWindow, n), nextWindow := n);
            && Reports(s, n + 1, lost) == Reports(s, n, lost) + [ReportOf(now, n, lost)]
            && now.windows - {n} == Pending(s.windows, s.nextWindow, n + 1)
  {
    var now := s.(windows := Pending(s.windows, s.nextWindow, n), nextWindow := n);
    assert WindowAt(now.windows, n) == WindowAt(s.windows, n);
    assert ReportOf(now, n, lost) == ReportOf(s, s.nextWindow + (n - s.nextWindow), lost);
  }

  lemma BookNothing(g: Grid, ws: map<int, Window>, floor: nat, t: Track, at: int)
    requires g.Valid()
    ensures Book(g, ws, floor, t, at, at) == ws
  {
    assert g.Touched(floor, at, at) == {};
  }

  lemma BookStepAt(g: Grid, ws: map<int, Window>, floor: nat, t: Track, lo: int, at: int, end: int, v: int)
    requires g.Valid() && g.origin <= lo <= at < end <= g.End(g.Index(at))
    requires at == lo || at == g.Start(g.Index(at))
    ensures var w, prefix, whole := g.Index(at), Book(g, ws, floor, t, lo, at), Book(g, ws, floor, t, lo, end);
            && (v in whole <==> v in prefix || (v == w && floor <= w))
            && WindowAt(whole, v) == if v == w && floor <= w then Post(g, w, WindowAt(prefix, w), t, end - at)
                                     else WindowAt(prefix, v)
  {
    ReachStep(g, lo, at, end, v);
    BookAt(g, ws, floor, t, lo, at, v);
    BookAt(g, ws, floor, t, lo, end, v);
  }

  /** The walk adds to one window at a time. */
  lemma ReachStep(g: Grid, lo: int, at: int, end: int, v: int)
    requires g.Valid() && g.origin <= lo <= at < end <= g.End(g.Index(at))
    requires at == lo || at == g.Start(g.Index(at))
    ensures v == g.Index(at) ==> g.Overlap(lo, at, v) == 0 && g.Overlap(lo, end, v) == end - at
    ensures v != g.Index(at) ==> g.Overlap(lo, end, v) == g.Overlap(lo, at, v)
  {
    g.Ordered(v, g.Index(at));
    g.Ordered(g.Index(at), v);
  }

  /** One turn of the loop of `AddTrackSegment`. */
  lemma BookStep(g: Grid, ws: map<int, Window>, floor: nat, t: Track, lo: int, at: int, end: int)
    requires g.Valid() && g.origin <= lo <= at < end <= g.End(g.Index(at))
    requires at == lo || at == g.Start(g.Index(at))
    ensures var w, prefix := g.Index(at), Book(g, ws, floor, t, lo, at);
            Book(g, ws, floor, t, lo, end) ==
            if floor <= w then prefix[w := Post(g, w, WindowAt(prefix, w), t, end - at)] else prefix
  {
    var w, prefix, whole := g.Index(at), Book(g, ws, floor, t, lo, at), Book(g, ws, floor, t, lo, end);
    var next := if floor <= w then prefix[w := Post(g, w, WindowAt(prefix, w), t, end - at)] else prefix;
    forall v ensures (v in next <==> v in whole) && WindowAt(next, v) == WindowAt(whole, v) {
      BookStepAt(g, ws, floor, t, lo, at, end, v);
    }
    SameWindows(next, whole, NEW_WINDOW);
  }

  /** Time before the origin reaches no window. */
  lemma BookFrom(g: Grid, ws: map<int, Window>, floor: nat, t: Track, lo: int, hi: int, end: int)
    requires g.Valid() && Max(lo, g.origin) <= end && hi <= end && (end == hi || end == Max(lo, g.origin))
    ensures Book(g, ws, floor, t, Max(lo, g.origin), end) == Book(g, ws, floor, t, lo, hi)
  {
    var l, r := Book(g, ws, floor, t, Max(lo, g.origin), end), Book(g, ws, floor, t, lo, hi);
    forall w ensures (w in l <==> w in r) && WindowAt(l, w) == WindowAt(r, w) {
      BookAt(g, ws, floor, t, Max(lo, g.origin), end, w);
      BookAt(g, ws, floor, t, lo, hi, w);
      g.Ordered(0, w);
    }
    SameWindows(l, r, NEW_WINDOW);
  }
}
