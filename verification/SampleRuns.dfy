/** Runs of the snapshot accumulator over sequential scans, and why emitted windows are final. */
module SampleRuns {
  import opened Windows
  import opened Model
  import opened Snapshots
  import opened SampleTimeline

  /** `closed[w]` and `emitted[w]` are window `w` and its report. */
  datatype SampleRun = SampleRun(s: Sampler, closed: seq<Window>, emitted: seq<Report>)

  function WindowOf(r: SampleRun, w: nat): Window {
    if w < |r.closed| then r.closed[w] else WindowAt(r.s.windows, w)
  }

  /** A scan that starts no earlier than `last`, with its sample times inside its bracket. */
  predicate Bracketed(snap: Snapshot, last: int) {
    && last <= snap.startedAt <= snap.finishedAt && snap.startedAt != 0 && snap.finishedAt != 0
    && forall s :: s in snap.samples ==> s.timestamp != 0 && snap.startedAt <= s.timestamp <= snap.finishedAt
  }

  ghost function Scan(r: SampleRun, snap: Snapshot): SampleRun
    requires r.s.grid.Valid()
  {
    var (s, reports) := Observe(r.s, snap);
    SampleRun(s, r.closed + seq(|reports|, i => WindowAt(Booked(r.s, snap).windows, r.s.nextWindow + i)),
              r.emitted + reports)
  }

  /** Emitted windows all end by the time of every sample still waiting for its successor. */
  ghost predicate Final(s: Sampler, last: int) {
    && (forall id :: id in s.previous ==> s.previous[id].timestamp <= last)
    && (forall id :: id in s.previous && 0 < s.nextWindow ==> s.grid.Start(s.nextWindow) <= s.previous[id].timestamp)
    && (0 < s.nextWindow ==> s.grid.Start(s.nextWindow) <= last)
  }

  ghost predicate Settled(r: SampleRun, last: int) {
    && r.s.Valid() && Final(r.s, last)
    && |r.closed| == r.s.nextWindow == |r.emitted|
    && (forall w :: w in r.s.windows ==> r.s.nextWindow <= w)
    && (!r.s.initialized ==> r.s.nextWindow == 0 && r.s.previous == map[] && r.s.windows == map[])
  }

  predicate Fresh(r: SampleRun) {
    && r.s.grid.Valid() && !r.s.initialized && r.s.previous == map[] && r.s.windows == map[] && r.s.nextWindow == 0
    && r.closed == [] && r.emitted == []
  }

  // ---------------------------------------------------------------- finality

  /** Nothing that starts at or after the first open window is skipped. */
  lemma NoneSkipped(g: Grid, next: nat, lo: int, hi: int)
    requires g.Valid() && (0 < next ==> g.Start(next) <= lo)
    ensures g.Touched(next, lo, hi) == g.Touched(0, lo, hi)
  {
    forall w: nat | w < next ensures g.Overlap(lo, hi, w) == 0 { g.Ordered(w, next); }
  }

  lemma NotBefore(g: Grid, next: nat, at: int)
    requires g.Valid() && (0 < next ==> g.Start(next) <= at)
    ensures next <= g.Index(at)
  {
    if 0 < next {
      g.Ordered(0, next);
      if g.Index(at) < next { g.Ordered(g.Index(at), next); }
    }
  }

  lemma ApplySame(g: Grid, ws: map<int, Window>, next: nat, v: Visit)
    requires g.Valid() && (0 < next ==> g.Start(next) <= v.lo)
    ensures Apply(g, ws, next, v) == Apply(g, ws, 0, v)
  {
    NoneSkipped(g, next, v.lo, v.hi);
  }

  ghost predicate AllFrom(vs: seq<Visit>, g: Grid, next: nat) {
    forall i :: 0 <= i < |vs| ==> (0 < next ==> g.Start(next) <= vs[i].lo)
  }

  lemma {:induction false} ApplyAllSame(g: Grid, ws: map<int, Window>, next: nat, vs: seq<Visit>)
    requires g.Valid() && AllFrom(vs, g, next)
    ensures ApplyAll(g, ws, next, vs) == ApplyAll(g, ws, 0, vs)
  {
    if vs != [] {
      ApplyAllSame(g, ws, next, vs[..|vs| - 1]);
      ApplySame(g, ApplyAll(g, ws, 0, vs[..|vs| - 1]), next, vs[|vs| - 1]);
    }
  }

  lemma VisitsFrom(p: Sample, current: map<Identity, Sample>, snap: Snapshot, g: Grid, next: nat)
    requires 0 < next ==> g.Start(next) <= p.timestamp
    ensures AllFrom(VisitsFor(p, current, snap), g, next)
  {
  }

  lemma {:induction false} BookAllSame(s: Sampler, ids: set<Identity>, current: map<Identity, Sample>, snap: Snapshot,
                                       last: int)
    requires s.grid.Valid() && Final(s, last) && ids <= s.previous.Keys
    ensures BookAll(s.(nextWindow := 0), ids, current, snap) == BookAll(s, ids, current, snap)
    decreases |ids|
  {
    if ids != {} {
      var id := Any(ids);
      var p := s.previous[id];
      VisitsFrom(p, current, snap, s.grid, s.nextWindow);
      ApplyAllSame(s.grid, s.windows, s.nextWindow, VisitsFor(p, current, snap));
      assert BookOne(s.(nextWindow := 0), id, current, snap) == BookOne(s, id, current, snap).(nextWindow := 0);
      BookAllSame(BookOne(s, id, current, snap), ids - {id}, current, snap, last);
    }
  }

  lemma ObservationSame(s: Sampler, ws: map<int, Window>, c: Sample)
    requires s.grid.Valid() && s.initialized && (0 < s.nextWindow ==> s.grid.Start(s.nextWindow) <= c.timestamp)
    ensures var at := ObservationIndex(s, c.timestamp);
            Observation(s.grid, ws, 0, at, c) == Observation(s.grid, ws, s.nextWindow, at, c)
  {
    NotBefore(s.grid, s.nextWindow, c.timestamp);
    if 0 < s.nextWindow { s.grid.Ordered(0, s.nextWindow); }
  }

  lemma {:induction false} CountSame(s: Sampler, ws: map<int, Window>, samples: seq<Sample>)
    requires s.grid.Valid() && s.initialized
    requires forall p :: p in samples && 0 < s.nextWindow ==> s.grid.Start(s.nextWindow) <= p.timestamp
    ensures CountSamples(s.(nextWindow := 0), ws, samples) == CountSamples(s, ws, samples)
  {
    if samples != [] {
      var rest, last := samples[..|samples| - 1], samples[|samples| - 1];
      CountSame(s, ws, rest);
      ObservationSame(s, CountSamples(s, ws, rest), last);
    }
  }

  lemma ScanSame(s: Sampler, snap: Snapshot, last: int)
    requires s.grid.Valid() && Final(s, last) && Bracketed(snap, last)
    ensures RecordScan(s.(nextWindow := 0), snap) == RecordScan(s, snap)
  {
    NoneSkipped(s.grid, s.nextWindow, snap.startedAt, snap.finishedAt);
    NotBefore(s.grid, s.nextWindow, snap.finishedAt);
    if 0 < s.nextWindow { s.grid.Ordered(0, s.nextWindow); }
    assert ScanIndices(s.(nextWindow := 0), snap.startedAt, snap.finishedAt) ==
           ScanIndices(s, snap.startedAt, snap.finishedAt);
    var indices := ScanIndices(s, snap.startedAt, snap.finishedAt);
    assert forall w :: w in indices ==> s.nextWindow <= w;
    assert (set k | k in indices && s.nextWindow <= k) == indices == (set k | k in indices && 0 <= k);
  }

  /** Finality: leaving out the check for emitted windows changes nothing, so no scan owes time,
      counters, observations or scan counts to a report already sent. */
  lemma EmittedWindowsAreFinal(s: Sampler, snap: Snapshot, last: int)
    requires s.Valid() && s.initialized && Final(s, last) && Bracketed(snap, last)
    ensures Booked(s.(nextWindow := 0), snap).windows == Booked(s, snap).windows
  {
    ScanSame(s, snap, last);
    CountSame(s, RecordScan(s, snap), snap.samples);
    var counted := s.(windows := CountSamples(s, RecordScan(s, snap), snap.samples));
    BookAllSame(counted, s.previous.Keys, ByIdentity(snap.samples), snap, last);
  }

  lemma CarriesOver(s: Sampler, snap: Snapshot, last: int)
    requires s.Valid() && s.initialized && Final(s, last) && Bracketed(snap, last)
    ensures Final(Observe(s, snap).0, snap.finishedAt)
  {
    var g, mark, current := s.grid, Watermark(s, snap), ByIdentity(snap.samples);
    var n := NextOpen(s, mark);
    forall id | id in current ensures mark <= current[id].timestamp {
      assert EndOf(current, snap, id) in Ends(s, current, snap);
    }
    if s.nextWindow < n {
      assert g.Start(n) <= mark;
    }
  }

  lemma AllStillOpen(s: Sampler, snap: Snapshot)
    requires s.grid.Valid() && forall w :: w in s.windows ==> s.nextWindow <= w
    ensures forall w :: w in Booked(s, snap).windows ==> s.nextWindow <= w
  {
    CountOpen(s, RecordScan(s, snap), snap.samples);
    var counted := s.(windows := CountSamples(s, RecordScan(s, snap), snap.samples));
    BookOpen(counted, s.previous.Keys, ByIdentity(snap.samples), snap);
  }

  lemma {:induction false} CountOpen(s: Sampler, ws: map<int, Window>, samples: seq<Sample>)
    requires s.grid.Valid() && forall w :: w in ws ==> s.nextWindow <= w
    ensures forall w :: w in CountSamples(s, ws, samples) ==> s.nextWindow <= w
  {
    if samples != [] { CountOpen(s, ws, samples[..|samples| - 1]); }
  }

  lemma {:induction false} ApplyOpen(g: Grid, ws: map<int, Window>, floor: nat, vs: seq<Visit>)
    requires g.Valid() && forall w :: w in ws ==> floor <= w
    ensures forall w :: w in ApplyAll(g, ws, floor, vs) ==> floor <= w
  {
    if vs != [] { ApplyOpen(g, ws, floor, vs[..|vs| - 1]); }
  }

  lemma {:induction false} BookOpen(s: Sampler, ids: set<Identity>, current: map<Identity, Sample>, snap: Snapshot)
    requires s.grid.Valid() && ids <= s.previous.Keys && forall w :: w in s.windows ==> s.nextWindow <= w
    ensures forall w :: w in BookAll(s, ids, current, snap) ==> s.nextWindow <= w
    decreases |ids|
  {
    if ids != {} {
      var id := Any(ids);
      ApplyOpen(s.grid, s.windows, s.nextWindow, VisitsFor(s.previous[id], current, snap));
      BookOpen(BookOne(s, id, current, snap), ids - {id}, current, snap);
    }
  }

  lemma ScanKeeps(r: SampleRun, snap: Snapshot, last: int)
    requires Settled(r, last) && Bracketed(snap, last)
    ensures Settled(Scan(r, snap), snap.finishedAt) && Scan(r, snap).s.initialized
  {
    if r.s.initialized {
      CarriesOver(r.s, snap, last);
      AllStillOpen(r.s, snap);
    } else {
      var placed := r.s.(grid := if r.s.fixedOrigin then r.s.grid else r.s.grid.(origin := snap.finishedAt));
      CountOpen(placed, RecordScan(placed, snap), snap.samples);
    }
  }

  /** End of the scan before number `i`, or the start of the first one. */
  function ScannedUntil(snaps: seq<Snapshot>, i: nat): int
    requires i < |snaps|
  {
    if i == 0 then snaps[0].startedAt else snaps[i - 1].finishedAt
  }

  /** Sequential scans: each starts no earlier than the previous one finished. */
  ghost predicate InOrder(snaps: seq<Snapshot>) { forall i: nat | i < |snaps| :: FollowsOn(snaps, i) }

  predicate FollowsOn(snaps: seq<Snapshot>, i: nat)
    requires i < |snaps|
  {
    Bracketed(snaps[i], ScannedUntil(snaps, i))
  }

  ghost predicate Steps(r: SampleRun, snap: Snapshot, q: SampleRun) { r.s.grid.Valid() && q == Scan(r, snap) }

  ghost predicate StepAt(states: seq<SampleRun>, snaps: seq<Snapshot>, i: nat)
    requires i < |snaps| < |states|
  {
    Steps(states[i], snaps[i], states[i + 1])
  }

  /** A run over sequential scans: `states[i]` is the accumulator after the first `i` of them. */
  ghost predicate Runs(states: seq<SampleRun>, snaps: seq<Snapshot>) {
    && |states| == |snaps| + 1 && Fresh(states[0]) && InOrder(snaps)
    && forall i: nat | i < |snaps| :: StepAt(states, snaps, i)
  }

  /** Throughout a run, closed windows, reports and pending windows are aligned, and every sample that waits
      for its successor lies past the emitted windows. */
  lemma {:induction false} RunSettles(states: seq<SampleRun>, snaps: seq<Snapshot>, n: nat)
    requires Runs(states, snaps) && n < |snaps|
    ensures Settled(states[n + 1], snaps[n].finishedAt) && states[n + 1].s.initialized
  {
    if n != 0 { RunSettles(states, snaps, n - 1); }
    assert StepAt(states, snaps, n) && FollowsOn(snaps, n);
    StepSettles(states[n], snaps[n], states[n + 1], ScannedUntil(snaps, n));
  }

  lemma FreshSettles(r: SampleRun, last: int)
    requires Fresh(r)
    ensures Settled(r, last)
  {
  }

  /** Before each scan of a run. */
  lemma ScanReady(states: seq<SampleRun>, snaps: seq<Snapshot>, n: nat)
    requires Runs(states, snaps) && n < |snaps|
    ensures Settled(states[n], ScannedUntil(snaps, n))
  {
    if n == 0 {
      FreshSettles(states[0], snaps[0].startedAt);
    } else {
      RunSettles(states, snaps, n - 1);
    }
  }

  lemma StepSettles(r: SampleRun, snap: Snapshot, q: SampleRun, last: int)
    requires (Fresh(r) || Settled(r, last)) && Bracketed(snap, last) && Steps(r, snap, q)
    ensures Settled(q, snap.finishedAt) && q.s.initialized
  {
    ScanKeeps(r, snap, last);
  }
}
