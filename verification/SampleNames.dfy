/** Sampled rows carry the process and the name of their thread. */
module SampleNames {
  import opened Wrappers
  import opened Windows
  import opened Model
  import opened Snapshots
  import opened SampleTimeline
  import opened SampleOrder
  import opened SampleRuns
  import opened SampleGauges
  import opened SampleThreads
  import opened Conservation

  /** The thread's row in a window, if there is one, has this process and name. */
  predicate Called(win: Window, id: Identity, pid: int, comm: string) {
    id in win.stats ==> win.stats[id].pid == pid && win.stats[id].comm == comm
  }

  /** So does each of its samples. */
  ghost predicate AllCalled(samples: seq<Sample>, id: Identity, pid: int, comm: string) {
    forall s :: s in samples && s.id == id ==> s.pid == pid && s.comm == comm
  }

  lemma EffectCalled(what: What, lo: int, hi: int, row: Row)
    requires lo <= hi
    ensures Effect(what, lo, hi, row).pid == row.pid && Effect(what, lo, hi, row).comm == row.comm
  {
  }

  lemma ApplyCalled(g: Grid, ws: map<int, Window>, floor: nat, v: Visit, w: int, id: Identity, pid: int, comm: string)
    requires g.Valid() && Called(WindowAt(ws, w), id, pid, comm)
    requires v.sample.id == id ==> v.sample.pid == pid && v.sample.comm == comm
    ensures Called(WindowAt(Apply(g, ws, floor, v), w), id, pid, comm)
  {
    ApplyAt(g, ws, floor, v, w);
    if Reaches(g, floor, v, w) {
      EffectCalled(v.what, Max(v.lo, g.Start(w)), Min(v.hi, g.End(w)), RowFor(g, w, WindowAt(ws, w), v.sample));
    }
  }

  ghost predicate VisitsCalled(vs: seq<Visit>, id: Identity, pid: int, comm: string) {
    forall v :: v in vs && v.sample.id == id ==> v.sample.pid == pid && v.sample.comm == comm
  }

  lemma {:induction false} ApplyAllCalled(g: Grid, ws: map<int, Window>, floor: nat, vs: seq<Visit>, w: int,
                                          id: Identity, pid: int, comm: string)
    requires g.Valid() && Called(WindowAt(ws, w), id, pid, comm) && VisitsCalled(vs, id, pid, comm)
    ensures Called(WindowAt(ApplyAll(g, ws, floor, vs), w), id, pid, comm)
  {
    if vs != [] {
      assert vs[|vs| - 1] in vs;
      ApplyAllCalled(g, ws, floor, vs[..|vs| - 1], w, id, pid, comm);
      ApplyCalled(g, ApplyAll(g, ws, floor, vs[..|vs| - 1]), floor, vs[|vs| - 1], w, id, pid, comm);
    }
  }

  lemma VisitSamples(p: Sample, current: map<Identity, Sample>, snap: Snapshot)
    ensures forall v :: v in VisitsFor(p, current, snap) ==>
              v.sample == p || (p.id in current && v.sample == current[p.id])
  {
    if p.id in current {
      var c, end := current[p.id], SampleTime(current[p.id], snap);
      forall v | v in SchedVisits(p, c, end) + DelayVisits(p, c, end) ensures v.sample == c {}
      forall v | v in TimePart(p, c, end) ensures v.sample == p || v.sample == c {}
      if p.timestamp < end { GapInOrder(p, c, end); }
    }
  }

  /** Previous samples and current ones of the thread all agree. */
  ghost predicate AgreedOn(m: map<Identity, Sample>, id: Identity, pid: int, comm: string) {
    id in m ==> m[id].pid == pid && m[id].comm == comm
  }

  lemma OwnCalled(p: Sample, current: map<Identity, Sample>, snap: Snapshot, id: Identity, pid: int, comm: string)
    requires Keyed(current) && AgreedOn(current, id, pid, comm)
    requires p.id == id ==> p.pid == pid && p.comm == comm
    ensures VisitsCalled(VisitsFor(p, current, snap), id, pid, comm)
  {
    VisitSamples(p, current, snap);
  }

  lemma {:induction false} BookAllCalled(s: Sampler, ids: set<Identity>, current: map<Identity, Sample>,
                                         snap: Snapshot, w: int, id: Identity, pid: int, comm: string)
    requires s.Valid() && Keyed(current) && ids <= s.previous.Keys && Called(WindowAt(s.windows, w), id, pid, comm)
    requires AgreedOn(s.previous, id, pid, comm) && AgreedOn(current, id, pid, comm)
    ensures Called(WindowAt(BookAll(s, ids, current, snap), w), id, pid, comm)
    decreases |ids|
  {
    if ids != {} {
      var one := Any(ids);
      OwnCalled(s.previous[one], current, snap, id, pid, comm);
      ApplyAllCalled(s.grid, s.windows, s.nextWindow, VisitsFor(s.previous[one], current, snap), w, id, pid, comm);
      BookAllCalled(BookOne(s, one, current, snap), ids - {one}, current, snap, w, id, pid, comm);
    }
  }

  lemma ObservationCalled(g: Grid, ws: map<int, Window>, next: nat, at: nat, c: Sample, w: int, id: Identity, pid: int,
                          comm: string)
    requires Called(WindowAt(ws, w), id, pid, comm) && (c.id == id ==> c.pid == pid && c.comm == comm)
    ensures Called(WindowAt(Observation(g, ws, next, at, c), w), id, pid, comm)
  {
  }

  lemma {:induction false} CountCalled(s: Sampler, ws: map<int, Window>, samples: seq<Sample>, w: int, id: Identity,
                                       pid: int, comm: string)
    requires s.grid.Valid() && Called(WindowAt(ws, w), id, pid, comm) && AllCalled(samples, id, pid, comm)
    ensures Called(WindowAt(CountSamples(s, ws, samples), w), id, pid, comm)
  {
    if samples != [] {
      var rest, last := samples[..|samples| - 1], samples[|samples| - 1];
      assert last in samples;
      CountCalled(s, ws, rest, w, id, pid, comm);
      var at := ObservationIndex(s, last.timestamp);
      ObservationCalled(s.grid, CountSamples(s, ws, rest), s.nextWindow, at, last, w, id, pid, comm);
    }
  }

  lemma RecordCalled(s: Sampler, snap: Snapshot, w: int, id: Identity, pid: int, comm: string)
    requires s.grid.Valid() && Called(WindowAt(s.windows, w), id, pid, comm)
    ensures Called(WindowAt(RecordScan(s, snap), w), id, pid, comm)
  {
  }

  lemma BookedCalled(s: Sampler, snap: Snapshot, w: int, id: Identity, pid: int, comm: string)
    requires s.Valid() && Called(WindowAt(s.windows, w), id, pid, comm) && AllCalled(snap.samples, id, pid, comm)
    requires AgreedOn(s.previous, id, pid, comm)
    ensures Called(WindowAt(Booked(s, snap).windows, w), id, pid, comm)
  {
    var counted := s.(windows := CountSamples(s, RecordScan(s, snap), snap.samples));
    RecordCalled(s, snap, w, id, pid, comm);
    CountCalled(s, RecordScan(s, snap), snap.samples, w, id, pid, comm);
    BookAllCalled(counted, s.previous.Keys, ByIdentity(snap.samples), snap, w, id, pid, comm);
  }

  lemma FirstCalled(s: Sampler, snap: Snapshot, w: int, id: Identity, pid: int, comm: string)
    requires s.grid.Valid() && Called(WindowAt(s.windows, w), id, pid, comm) && AllCalled(snap.samples, id, pid, comm)
    ensures Called(WindowAt(First(s, snap).windows, w), id, pid, comm)
  {
    var placed := s.(grid := if s.fixedOrigin then s.grid else s.grid.(origin := snap.finishedAt));
    RecordCalled(placed, snap, w, id, pid, comm);
    CountCalled(placed, RecordScan(placed, snap), snap.samples, w, id, pid, comm);
  }

  lemma ScanCalled(r: SampleRun, snap: Snapshot, last: int, w: nat, id: Identity, pid: int, comm: string)
    requires Settled(r, last) && Bracketed(snap, last) && Called(WindowOf(r, w), id, pid, comm)
    requires AllCalled(snap.samples, id, pid, comm) && AgreedOn(r.s.previous, id, pid, comm)
    ensures Called(WindowOf(Scan(r, snap), w), id, pid, comm)
  {
    if !r.s.initialized {
      FirstCalled(r.s, snap, w, id, pid, comm);
    } else if w < r.s.nextWindow {
      EmittedWindow(r, snap, last, w);
    } else {
      OpenWindow(r, snap, last, w);
      BookedCalled(r.s, snap, w, id, pid, comm);
    }
  }

  lemma PreviousAgrees(states: seq<SampleRun>, snaps: seq<Snapshot>, i: nat, id: Identity, pid: int, comm: string)
    requires Runs(states, snaps) && i < |snaps| && AllCalled(snaps[i].samples, id, pid, comm)
    ensures AgreedOn(states[i + 1].s.previous, id, pid, comm)
  {
    assert StepAt(states, snaps, i);
    StepWaits(states[i], snaps[i], states[i + 1]);
  }

  lemma FirstScanCalled(states: seq<SampleRun>, snaps: seq<Snapshot>, w: nat, id: Identity, pid: int, comm: string)
    requires Runs(states, snaps) && snaps != [] && AllCalled(snaps[0].samples, id, pid, comm)
    ensures Called(WindowOf(states[1], w), id, pid, comm)
  {
    ScanReady(states, snaps, 0);
    assert StepAt(states, snaps, 0) && FollowsOn(snaps, 0);
    ScanCalled(states[0], snaps[0], ScannedUntil(snaps, 0), w, id, pid, comm);
  }

  lemma NextScanCalled(states: seq<SampleRun>, snaps: seq<Snapshot>, i: nat, w: nat, id: Identity, pid: int,
                       comm: string)
    requires Runs(states, snaps) && i + 1 < |snaps| && Called(WindowOf(states[i + 1], w), id, pid, comm)
    requires AllCalled(snaps[i].samples, id, pid, comm) && AllCalled(snaps[i + 1].samples, id, pid, comm)
    ensures Called(WindowOf(states[i + 2], w), id, pid, comm)
  {
    PreviousAgrees(states, snaps, i, id, pid, comm);
    RunSettles(states, snaps, i);
    assert StepAt(states, snaps, i + 1) && FollowsOn(snaps, i + 1);
    ScanCalled(states[i + 1], snaps[i + 1], snaps[i].finishedAt, w, id, pid, comm);
  }

  /** Every sample of the thread in the scans up to number `n` carries this process and name. */
  ghost predicate AlwaysCalled(snaps: seq<Snapshot>, n: nat, id: Identity, pid: int, comm: string)
    requires n < |snaps|
  {
    AllCalled(snaps[n].samples, id, pid, comm) && (n == 0 || AlwaysCalled(snaps, n - 1, id, pid, comm))
  }

  /** If every sample of a thread carries one process number and one name, so does each of its rows, in every window
      of the run, emitted or pending. */
  lemma {:induction false} RowsCalled(states: seq<SampleRun>, snaps: seq<Snapshot>, n: nat, w: nat, id: Identity,
                                      pid: int, comm: string)
    requires Runs(states, snaps) && n < |snaps| && AlwaysCalled(snaps, n, id, pid, comm)
    ensures Called(WindowOf(states[n + 1], w), id, pid, comm)
  {
    if n == 0 {
      FirstScanCalled(states, snaps, w, id, pid, comm);
    } else {
      RowsCalled(states, snaps, n - 1, w, id, pid, comm);
      NextScanCalled(states, snaps, n - 1, w, id, pid, comm);
    }
  }

  // ---------------------------------------------------------------- a name that changed

  /** The thread has a row in the window, by this name. */
  predicate GoesBy(win: Window, id: Identity, comm: string) { id in win.stats && win.stats[id].comm == comm }

  /** Whoever is visited goes by the visit's name from then on; others keep theirs. */
  lemma ApplyRenames(g: Grid, ws: map<int, Window>, floor: nat, v: Visit, w: int, id: Identity, comm: string)
    requires g.Valid() && (v.sample.id == id ==> v.sample.comm == comm != "")
    ensures v.sample.id == id && Reaches(g, floor, v, w) ==> GoesBy(WindowAt(Apply(g, ws, floor, v), w), id, comm)
    ensures GoesBy(WindowAt(ws, w), id, comm) ==> GoesBy(WindowAt(Apply(g, ws, floor, v), w), id, comm)
  {
    ApplyAt(g, ws, floor, v, w);
    if Reaches(g, floor, v, w) {
      EffectCalled(v.what, Max(v.lo, g.Start(w)), Min(v.hi, g.End(w)), RowFor(g, w, WindowAt(ws, w), v.sample));
    }
  }

  /** Every visit of the thread is by this name. */
  ghost predicate VisitsBy(vs: seq<Visit>, id: Identity, comm: string) {
    forall v :: v in vs && v.sample.id == id ==> v.sample.comm == comm
  }

  ghost predicate SomeReaches(g: Grid, floor: nat, vs: seq<Visit>, w: int, id: Identity) {
    exists v :: v in vs && v.sample.id == id && Reaches(g, floor, v, w)
  }

  lemma {:induction false} ApplyAllRenames(g: Grid, ws: map<int, Window>, floor: nat, vs: seq<Visit>, w: int,
                                           id: Identity, comm: string)
    requires g.Valid() && comm != "" && VisitsBy(vs, id, comm)
    requires GoesBy(WindowAt(ws, w), id, comm) || SomeReaches(g, floor, vs, w, id)
    ensures GoesBy(WindowAt(ApplyAll(g, ws, floor, vs), w), id, comm)
  {
    if vs != [] {
      var rest, last := vs[..|vs| - 1], vs[|vs| - 1];
      assert last in vs;
      ApplyRenames(g, ApplyAll(g, ws, floor, rest), floor, last, w, id, comm);
      if !(last.sample.id == id && Reaches(g, floor, last, w)) {
        if !GoesBy(WindowAt(ws, w), id, comm) {
          var v :| v in vs && v.sample.id == id && Reaches(g, floor, v, w);
          assert v in rest;
        }
        ApplyAllRenames(g, ws, floor, rest, w, id, comm);
      }
    }
  }

  lemma {:induction false} BookAllRenames(s: Sampler, ids: set<Identity>, current: map<Identity, Sample>,
                                          snap: Snapshot, w: int, id: Identity, comm: string)
    requires s.Valid() && Keyed(current) && ids <= s.previous.Keys && comm != ""
    requires (id in s.previous ==> s.previous[id].comm == comm) && (id in current ==> current[id].comm == comm)
    requires GoesBy(WindowAt(s.windows, w), id, comm)
             || (id in ids && SomeReaches(s.grid, s.nextWindow, VisitsFor(s.previous[id], current, snap), w, id))
    ensures GoesBy(WindowAt(BookAll(s, ids, current, snap), w), id, comm)
    decreases |ids|
  {
    if ids != {} {
      var one := Any(ids);
      VisitSamples(s.previous[one], current, snap);
      if one == id || GoesBy(WindowAt(s.windows, w), id, comm) {
        ApplyAllRenames(s.grid, s.windows, s.nextWindow, VisitsFor(s.previous[one], current, snap), w, id, comm);
      }
      BookAllRenames(BookOne(s, one, current, snap), ids - {one}, current, snap, w, id, comm);
    }
  }

  lemma GapReaches(g: Grid, floor: nat, p: Sample, c: Sample, end: int, w: int)
    requires p.timestamp < end && floor <= w && 0 < g.Overlap(p.timestamp, end, w)
    ensures SomeReaches(g, floor, GapVisits(p, c, end), w, p.id)
  {
    var v := Visit(p, p.timestamp, end, Gap(end - p.timestamp));
    GapInOrder(p, c, end);
    assert v in TimePart(p, c, end);
    assert Reaches(g, floor, v, w);
  }

  lemma CountedRenames(s: Sampler, counted: Sampler, snap: Snapshot, current: map<Identity, Sample>, w: int,
                       id: Identity)
    requires s.Valid() && counted.(windows := s.windows) == s && Keyed(current) && id in s.previous && id in current
    requires s.previous[id].comm == current[id].comm != "" && current[id].timestamp != 0 && s.nextWindow <= w
    requires 0 < s.grid.Overlap(s.previous[id].timestamp, current[id].timestamp, w)
    ensures GoesBy(WindowAt(BookAll(counted, s.previous.Keys, current, snap), w), id, current[id].comm)
  {
    GapReaches(s.grid, s.nextWindow, s.previous[id], current[id], current[id].timestamp, w);
    BookAllRenames(counted, s.previous.Keys, current, snap, w, id, current[id].comm);
  }

  lemma BookedRenames(s: Sampler, snap: Snapshot, w: int, id: Identity, c: Sample)
    requires s.Valid() && id in s.previous && s.previous[id].comm == c.comm != ""
    requires LastSample(snap.samples, id) == Some(c) && c.timestamp != 0 && s.nextWindow <= w
    requires 0 < s.grid.Overlap(s.previous[id].timestamp, c.timestamp, w)
    ensures GoesBy(WindowAt(Booked(s, snap).windows, w), id, c.comm)
  {
    var counted := s.(windows := CountSamples(s, RecordScan(s, snap), snap.samples));
    LastIsKept(snap.samples, id);
    CountedRenames(s, counted, snap, ByIdentity(snap.samples), w, id);
  }

  /** A scan leaves the row of each open window that a thread's gap reaches with the name that both samples carry,
      whatever name it had before. */
  lemma RowRenamed(states: seq<SampleRun>, snaps: seq<Snapshot>, i: nat, p: Sample, c: Sample, w: nat, id: Identity)
    requires Runs(states, snaps) && i + 1 < |snaps| && p.comm == c.comm != ""
    requires LastSample(snaps[i].samples, id) == Some(p) && LastSample(snaps[i + 1].samples, id) == Some(c)
    requires |states[i + 1].emitted| <= w && 0 < states[i + 1].s.grid.Overlap(p.timestamp, c.timestamp, w)
    ensures GoesBy(WindowOf(states[i + 2], w), id, c.comm)
  {
    RunSettles(states, snaps, i);
    ScanWaits(states, snaps, i, id);
    InScan(snaps, i + 1, c, id);
    assert StepAt(states, snaps, i + 1);
    OpenWindow(states[i + 1], snaps[i + 1], snaps[i].finishedAt, w);
    BookedRenames(states[i + 1].s, snaps[i + 1], w, id, c);
  }
}
