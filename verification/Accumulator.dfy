/** `Accumulator` itself: its maps and counters are updated in place
    (internal/collector/accumulator.go). */
module AccumulatorClass {
  import opened Windows
  import opened Model
  import opened RowOrder
  import opened RowSort
  import opened Snapshots
  import opened SampleTimeline
  import opened SampleOrder

  function Earlier(left: int, right: int): int {
    if left == 0 || (right != 0 && right < left) then right else left
  }

  class Accumulator {
    var grid: Grid
    const fixedOrigin: bool
    var initialized: bool
    var previous: map<Identity, Sample>
    var windows: map<int, Window>
    var nextWindow: nat

    ghost function State(): Sampler
      reads this
    {
      Sampler(grid, fixedOrigin, initialized, previous, windows, nextWindow)
    }

    ghost predicate Valid()
      reads this
    {
      State().Valid()
    }

    constructor (interval: int)
      requires 0 < interval
      ensures Valid() && State() == Sampler(Grid(0, interval), false, false, map[], map[], 0)
    {
      grid, fixedOrigin := Grid(0, interval), false;
      initialized, previous, windows, nextWindow := false, map[], map[], 0;
    }

    /** `NewAccumulatorAt`: windows aligned with an external timeline. */
    constructor At(interval: int, origin: int)
      requires 0 < interval
      ensures Valid() && State() == Sampler(Grid(origin, interval), true, false, map[], map[], 0)
    {
      grid, fixedOrigin := Grid(origin, interval), true;
      initialized, previous, windows, nextWindow := false, map[], map[], 0;
    }

    method Observe(snapshot: Snapshot, now: int) returns (reports: seq<Report>)
      requires Valid() && now != 0
      modifies this
      ensures Valid() && (State(), reports) == SampleTimeline.Observe(old(State()), Normalize(snapshot, now))
    {
      var snap := Normalize(snapshot, now);
      var current := ByIdentity(snap.samples);
      if !initialized {
        if !fixedOrigin {
          grid := grid.(origin := snap.finishedAt);
        }
        ghost var placed := State();
        RecordScan(snap);
        RecordObservations(snap, placed);
        initialized := true;
        previous := current;
        return [];
      }
      ghost var before := State();
      RecordScan(snap);
      RecordObservations(snap, before);
      var seen := BookPrevious(current, snap);
      var watermark := HoldForNew(current, snap, seen);
      previous := current;
      reports := FinalizeThrough(watermark);
    }

    /** Counts the scan in every window it spans. */
    method RecordScan(snap: Snapshot)
      requires Valid()
      modifies this`windows
      ensures windows == SampleTimeline.RecordScan(old(State()), snap)
    {
      ghost var before := State();
      var indices := ScanWindowIndices(snap.startedAt, snap.finishedAt);
      ghost var done: set<int> := {};
      for i := 0 to |indices|
        invariant forall w :: w in done <==> w in indices[..i]
        invariant windows == ScanInto(before.windows, nextWindow, done, snap)
      {
        var w := indices[i];
        ScanOneMore(before.windows, nextWindow, done, w, snap);
        if nextWindow <= w {
          windows := windows[w := Scanned(WindowAt(windows, w), snap)];
        }
        done := done + {w};
      }
      assert indices[..|indices|] == indices;
      assert forall w :: w in done <==> w in ScanIndices(before, snap.startedAt, snap.finishedAt);
      assert done == ScanIndices(before, snap.startedAt, snap.finishedAt);
    }

    method ScanWindowIndices(start: int, end: int) returns (indices: seq<int>)
      requires Valid()
      ensures forall w :: w in indices <==> w in ScanIndices(State(), start, end)
      ensures forall i, j :: 0 <= i < j < |indices| ==> indices[i] < indices[j]
    {
      if end <= grid.origin {
        return [0];
      }
      if end <= start {
        return [grid.Index(end)];
      }
      indices := [];
      ghost var first := Max(start, grid.origin);
      var at := Max(start, grid.origin);
      while at < end
        invariant first <= at <= end
        invariant at == first || at == end || at == grid.Start(grid.Index(at))
        invariant forall w :: w in indices <==> nextWindow <= w && 0 < grid.Overlap(first, at, w)
        invariant forall i, j :: 0 <= i < j < |indices| ==> indices[i] < indices[j]
        decreases end - at
      {
        var w := grid.Index(at);
        var next := Min(end, grid.End(w));
        OneMoreWindow(grid, first, at, next);
        grid.NextBoundary(at);
        if nextWindow <= w {
          assert forall i :: 0 <= i < |indices| ==> indices[i] in indices;
          indices := indices + [w];
        }
        at := next;
      }
      SameReach(grid, start, end);
      if indices == [] {
        indices := [grid.Index(end)];
      } else {
        assert indices[0] in indices;
      }
    }

    method RecordObservations(snap: Snapshot, ghost s: Sampler)
      requires Valid() && s.grid == grid && s.nextWindow == nextWindow && s.initialized == initialized
      modifies this`windows
      ensures windows == CountSamples(s, old(windows), snap.samples)
    {
      for i := 0 to |snap.samples|
        invariant windows == CountSamples(s, old(windows), snap.samples[..i])
      {
        var sample := snap.samples[i];
        var w := if initialized && grid.origin <= sample.timestamp then grid.Index(sample.timestamp) else 0;
        assert snap.samples[..i + 1][..i] == snap.samples[..i];
        windows := Observation(grid, windows, nextWindow, w, sample);
      }
      assert snap.samples[..|snap.samples|] == snap.samples;
    }

    /** Books every previous sample, in any order of the map, and finds how far they have been seen. */
    method BookPrevious(current: map<Identity, Sample>, snap: Snapshot) returns (watermark: int)
      requires Valid() && Keyed(current) && snap.startedAt != 0 && snap.finishedAt != 0
      modifies this`windows
      ensures windows == BookAll(old(State()), previous.Keys, current, snap)
      ensures watermark != 0 && LeastSoFar(current, snap, previous.Keys, watermark)
    {
      watermark := snap.finishedAt;
      var todo := previous.Keys;
      while todo != {}
        invariant todo <= previous.Keys
        invariant BookAll(State(), todo, current, snap) == BookAll(old(State()), previous.Keys, current, snap)
        invariant watermark != 0 && LeastSoFar(current, snap, previous.Keys - todo, watermark)
      {
        var id :| id in todo;
        ghost var before := State();
        AnySampleFirst(before, todo, id, current, snap);
        VisitAll(VisitsFor(previous[id], current, snap));
        LowerMarkNext(current, snap, previous.Keys, todo, watermark, id);
        watermark := Earlier(watermark, EndOf(current, snap, id));
        todo := todo - {id};
      }
      assert previous.Keys - todo == previous.Keys;
    }

    /** New threads hold the watermark back too. */
    method HoldForNew(current: map<Identity, Sample>, snap: Snapshot, seen: int) returns (watermark: int)
      requires Valid() && snap.startedAt != 0 && snap.finishedAt != 0
      requires seen != 0 && LeastSoFar(current, snap, previous.Keys, seen)
      ensures watermark == Least(Ends(State(), current, snap))
    {
      watermark := seen;
      var added := current.Keys - previous.Keys;
      ghost var done := previous.Keys;
      while added != {}
        invariant added <= current.Keys && done + added == previous.Keys + current.Keys
        invariant watermark != 0 && LeastSoFar(current, snap, done, watermark)
      {
        var id :| id in added;
        LowerMark(current, snap, done, watermark, id);
        watermark := Earlier(watermark, EndOf(current, snap, id));
        added, done := added - {id}, done + {id};
      }
      LeastFound(State(), current, snap, watermark);
    }

    /** Makes the calls of `forEachWindow` that a gap asks for. */
    method VisitAll(vs: seq<Visit>)
      requires Valid()
      modifies this`windows
      ensures windows == ApplyAll(grid, old(windows), nextWindow, vs)
    {
      for i := 0 to |vs|
        invariant windows == ApplyAll(grid, old(windows), nextWindow, vs[..i])
      {
        assert vs[..i + 1][..i] == vs[..i];
        ForEachWindow(vs[i]);
      }
      assert vs[..|vs|] == vs;
    }

    /** Walks the windows between two instants, cutting at each boundary. */
    method ForEachWindow(v: Visit)
      requires Valid()
      modifies this`windows
      ensures windows == Apply(grid, old(windows), nextWindow, v)
    {
      ghost var before, first := windows, Max(v.lo, grid.origin);
      if v.hi <= v.lo || v.hi <= grid.origin {
        ApplyNothing(grid, windows, nextWindow, v);
        return;
      }
      var start := Max(v.lo, grid.origin);
      ApplyNothing(grid, windows, nextWindow, v.(lo := first, hi := first));
      while start < v.hi
        invariant first <= start <= v.hi
        invariant start == first || start == v.hi || start == grid.Start(grid.Index(start))
        invariant windows == Apply(grid, before, nextWindow, v.(lo := first, hi := start))
        decreases v.hi - start
      {
        var index := grid.Index(start);
        var end := Min(v.hi, grid.End(index));
        ApplyStep(grid, before, nextWindow, v.(lo := first), start, end);
        if nextWindow <= index {
          windows := windows[index := Visited(grid, index, WindowAt(windows, index), v, start, end)];
        }
        grid.NextBoundary(start);
        start := end;
      }
      ApplyFrom(grid, before, nextWindow, v);
    }

    /** Emits and drops the windows that end by the watermark. */
    method FinalizeThrough(watermark: int) returns (reports: seq<Report>)
      requires Valid()
      modifies this`windows, this`nextWindow
      ensures nextWindow == NextOpen(old(State()), watermark)
      ensures windows == Pending(old(windows), old(nextWindow), nextWindow)
      ensures reports == Reports(grid, old(windows), old(nextWindow), nextWindow)
    {
      ghost var before := State();
      reports := [];
      if watermark < grid.origin {
        return;
      }
      while grid.End(nextWindow) <= watermark
        invariant before.nextWindow <= nextWindow <= NextOpen(before, watermark)
        invariant windows == Pending(before.windows, before.nextWindow, nextWindow)
        invariant reports == Reports(grid, before.windows, before.nextWindow, nextWindow)
        decreases NextOpen(before, watermark) - nextWindow
      {
        grid.Ordered(grid.Index(watermark), nextWindow);
        var report := MakeReport();
        OneMoreReport(grid, before.windows, before.nextWindow, nextWindow);
        reports := reports + [report];
        windows := windows - {nextWindow};
        nextWindow := nextWindow + 1;
      }
      grid.Ordered(nextWindow, grid.Index(watermark));
    }

    method MakeReport() returns (report: Report)
      ensures report == ReportOf(grid, windows, nextWindow)
    {
      var win := WindowAt(windows, nextWindow);
      var q := win.quality;
      var threads := SortRows(TicksFirst, win.stats);
      q := q.(samplingMethod := if q.samplingMethod == "" then METHOD else q.samplingMethod, missed := true);
      ghost var plain := q;
      for i := 0 to |threads|
        invariant q == Summarize(plain, threads[..i])
      {
        assert threads[..i + 1][..i] == threads[..i];
        q := SummarizeRow(q, threads[i]);
      }
      assert threads[..|threads|] == threads;
      report := Report(grid.Start(nextWindow), grid.End(nextWindow), threads, q);
    }
  }

  predicate LeastSoFar(current: map<Identity, Sample>, snap: Snapshot, ids: set<Identity>, m: int) {
    && m <= snap.finishedAt && (m == snap.finishedAt || exists id :: id in ids && m == EndOf(current, snap, id))
    && forall id :: id in ids ==> m <= EndOf(current, snap, id)
  }

  lemma LowerMark(current: map<Identity, Sample>, snap: Snapshot, ids: set<Identity>, m: int, id: Identity)
    requires snap.startedAt != 0 && snap.finishedAt != 0 && m != 0 && LeastSoFar(current, snap, ids, m)
    ensures var k := Earlier(m, EndOf(current, snap, id)); k != 0 && LeastSoFar(current, snap, ids + {id}, k)
  {
    var k := Earlier(m, EndOf(current, snap, id));
    if k == m && k != snap.finishedAt {
      var other :| other in ids && m == EndOf(current, snap, other);
      assert other in ids + {id};
    } else {
      assert id in ids + {id};
    }
  }

  lemma LowerMarkNext(current: map<Identity, Sample>, snap: Snapshot, all: set<Identity>, todo: set<Identity>, m: int,
                      id: Identity)
    requires snap.startedAt != 0 && snap.finishedAt != 0 && m != 0 && id in todo && todo <= all
    requires LeastSoFar(current, snap, all - todo, m)
    ensures var k := Earlier(m, EndOf(current, snap, id)); k != 0 && LeastSoFar(current, snap, all - (todo - {id}), k)
  {
    LowerMark(current, snap, all - todo, m, id);
    assert all - (todo - {id}) == all - todo + {id};
  }

  lemma LeastFound(s: Sampler, current: map<Identity, Sample>, snap: Snapshot, m: int)
    requires LeastSoFar(current, snap, s.previous.Keys + current.Keys, m)
    ensures m == Least(Ends(s, current, snap))
  {
    var ends := Ends(s, current, snap);
    assert m in ends && forall x :: x in ends ==> m <= x;
  }

  // ---------------------------------------------------------------- loop steps

  lemma ScanOneMore(ws: map<int, Window>, next: nat, done: set<int>, w: int, snap: Snapshot)
    requires w !in done
    ensures var before := ScanInto(ws, next, done, snap);
            ScanInto(ws, next, done + {w}, snap) ==
            if next <= w then before[w := Scanned(WindowAt(before, w), snap)] else before
  {
    var before, after := ScanInto(ws, next, done, snap), ScanInto(ws, next, done + {w}, snap);
    assert after.Keys == before.Keys + if next <= w then {w} else {};
  }

  lemma OneMoreWindow(g: Grid, first: int, at: int, next: int)
    requires g.Valid() && g.origin <= first <= at < next <= g.End(g.Index(at))
    requires at == first || at == g.Start(g.Index(at))
    ensures forall w: nat :: 0 < g.Overlap(first, next, w) <==> 0 < g.Overlap(first, at, w) || w == g.Index(at)
    ensures forall w: nat :: 0 < g.Overlap(first, at, w) ==> w < g.Index(at)
  {
    forall w: nat
      ensures 0 < g.Overlap(first, next, w) <==> 0 < g.Overlap(first, at, w) || w == g.Index(at)
      ensures 0 < g.Overlap(first, at, w) ==> w < g.Index(at)
    {
      g.Ordered(w, g.Index(at));
      g.Ordered(g.Index(at), w);
    }
  }

  lemma SameReach(g: Grid, start: int, end: int)
    requires g.Valid()
    ensures forall w: nat :: g.Overlap(Max(start, g.origin), end, w) == g.Overlap(start, end, w)
  {
    forall w: nat ensures g.Overlap(Max(start, g.origin), end, w) == g.Overlap(start, end, w) {
      g.Ordered(0, w);
    }
  }

  lemma ApplyNothing(g: Grid, ws: map<int, Window>, floor: nat, v: Visit)
    requires g.Valid() && (v.hi <= v.lo || v.hi <= g.origin)
    ensures Apply(g, ws, floor, v) == ws
  {
    forall w: nat ensures g.Overlap(v.lo, v.hi, w) == 0 { g.Ordered(0, w); }
    assert g.Touched(floor, v.lo, v.hi) == {};
  }

  lemma ApplyStepAt(g: Grid, ws: map<int, Window>, floor: nat, v: Visit, at: int, end: int, u: int)
    requires g.Valid() && g.origin <= v.lo <= at < end <= g.End(g.Index(at)) && end <= v.hi
    requires at == v.lo || at == g.Start(g.Index(at))
    ensures var w, prefix, whole := g.Index(at), Apply(g, ws, floor, v.(hi := at)), Apply(g, ws, floor, v.(hi := end));
            && (u in whole <==> u in prefix || (u == w && floor <= w))
            && WindowAt(whole, u) == if u == w && floor <= w then Visited(g, w, WindowAt(prefix, w), v, at, end)
                                     else WindowAt(prefix, u)
  {
    var w := g.Index(at);
    g.Ordered(u, w);
    g.Ordered(w, u);
    ApplyAt(g, ws, floor, v.(hi := at), u);
    ApplyAt(g, ws, floor, v.(hi := end), u);
  }

  lemma ApplyStep(g: Grid, ws: map<int, Window>, floor: nat, v: Visit, at: int, end: int)
    requires g.Valid() && g.origin <= v.lo <= at < end <= g.End(g.Index(at)) && end <= v.hi
    requires at == v.lo || at == g.Start(g.Index(at))
    ensures var w, prefix := g.Index(at), Apply(g, ws, floor, v.(hi := at));
            Apply(g, ws, floor, v.(hi := end)) ==
            if floor <= w then prefix[w := Visited(g, w, WindowAt(prefix, w), v, at, end)] else prefix
  {
    var w, prefix, whole := g.Index(at), Apply(g, ws, floor, v.(hi := at)), Apply(g, ws, floor, v.(hi := end));
    var next := if floor <= w then prefix[w := Visited(g, w, WindowAt(prefix, w), v, at, end)] else prefix;
    forall u ensures (u in next <==> u in whole) && WindowAt(next, u) == WindowAt(whole, u) {
      ApplyStepAt(g, ws, floor, v, at, end, u);
    }
    SameWindows(next, whole, NEW_WINDOW);
  }

  lemma ApplyFromAt(g: Grid, ws: map<int, Window>, floor: nat, u: Visit, v: Visit, w: int)
    requires g.Valid() && u == v.(lo := Max(v.lo, g.origin))
    ensures w in Apply(g, ws, floor, u) <==> w in Apply(g, ws, floor, v)
    ensures WindowAt(Apply(g, ws, floor, u), w) == WindowAt(Apply(g, ws, floor, v), w)
  {
    ApplyAt(g, ws, floor, u, w);
    ApplyAt(g, ws, floor, v, w);
    g.Ordered(0, w);
  }

  /** Time before the origin reaches no window. */
  lemma ApplyFrom(g: Grid, ws: map<int, Window>, floor: nat, v: Visit)
    requires g.Valid()
    ensures Apply(g, ws, floor, v.(lo := Max(v.lo, g.origin))) == Apply(g, ws, floor, v)
  {
    var u := v.(lo := Max(v.lo, g.origin));
    var l, r := Apply(g, ws, floor, u), Apply(g, ws, floor, v);
    forall w ensures (w in l <==> w in r) && WindowAt(l, w) == WindowAt(r, w) {
      ApplyFromAt(g, ws, floor, u, v, w);
    }
    SameWindows(l, r, NEW_WINDOW);
  }

  lemma OneMoreReport(g: Grid, ws: map<int, Window>, next: nat, n: nat)
    requires next <= n
    ensures Reports(g, ws, next, n + 1) == Reports(g, ws, next, n) + [ReportOf(g, Pending(ws, next, n), n)]
    ensures Pending(ws, next, n) - {n} == Pending(ws, next, n + 1)
  {
    assert WindowAt(Pending(ws, next, n), n) == WindowAt(ws, n);
    assert ReportOf(g, Pending(ws, next, n), n) == ReportOf(g, ws, next + (n - next));
  }
}
