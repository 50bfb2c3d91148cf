/** How often windows and rows were looked at: scans in a window, samples in a row, and the longest scan. */
module ScanCounts {
  import opened Windows
  import opened Model
  import opened Snapshots
  import opened SampleTimeline
  import opened SampleOrder
  import opened SampleRuns
  import opened SampleGauges

  /** Samples in a thread's row, scans in its window, the longest of those scans, and what they call their method. */
  datatype Looks = Looks(samples: int, scans: int, longest: int, named: string)

  function LooksAt(win: Window, id: Identity): Looks {
    Looks(if id in win.stats then win.stats[id].sampling.samples else 0,
          win.quality.scan.snapshots, win.quality.scan.maxScan, win.quality.samplingMethod)
  }

  function One(b: bool): nat { if b then 1 else 0 }

  // ---------------------------------------------------------------- the reference

  /** Samples of the thread whose time lies in window `w`; those of the first scan all count in window 0. */
  function Sightings(g: Grid, first: bool, samples: seq<Sample>, id: Identity, w: nat): nat
    requires g.Valid()
  {
    if samples == [] then 0
    else
      var c := samples[|samples| - 1];
      Sightings(g, first, samples[..|samples| - 1], id, w)
      + One(c.id == id && w == if first then 0 else g.Index(c.timestamp))
  }

  /** The scan `[a, b)` reaches the window, or, without any time after the origin, ends in it. */
  predicate Scans(g: Grid, a: int, b: int, w: nat)
    requires g.Valid()
  {
    0 < g.Overlap(a, b, w) || (b <= Max(a, g.origin) && w == g.Index(b))
  }

  // ---------------------------------------------------------------- booking changes none of it

  lemma EffectLooks(what: What, lo: int, hi: int, row: Row)
    requires lo <= hi
    ensures Effect(what, lo, hi, row).sampling.samples == row.sampling.samples
  {
  }

  lemma ApplyLooks(g: Grid, ws: map<int, Window>, floor: nat, v: Visit, w: int, id: Identity)
    requires g.Valid()
    ensures LooksAt(WindowAt(Apply(g, ws, floor, v), w), id) == LooksAt(WindowAt(ws, w), id)
  {
    ApplyAt(g, ws, floor, v, w);
    if Reaches(g, floor, v, w) {
      EffectLooks(v.what, Max(v.lo, g.Start(w)), Min(v.hi, g.End(w)), RowFor(g, w, WindowAt(ws, w), v.sample));
    }
  }

  lemma {:induction false} ApplyAllLooks(g: Grid, ws: map<int, Window>, floor: nat, vs: seq<Visit>, w: int,
                                         id: Identity)
    requires g.Valid()
    ensures LooksAt(WindowAt(ApplyAll(g, ws, floor, vs), w), id) == LooksAt(WindowAt(ws, w), id)
  {
    if vs != [] {
      ApplyAllLooks(g, ws, floor, vs[..|vs| - 1], w, id);
      ApplyLooks(g, ApplyAll(g, ws, floor, vs[..|vs| - 1]), floor, vs[|vs| - 1], w, id);
    }
  }

  lemma {:induction false} BookAllLooks(s: Sampler, ids: set<Identity>, current: map<Identity, Sample>,
                                        snap: Snapshot, w: int, id: Identity)
    requires s.grid.Valid() && ids <= s.previous.Keys
    ensures LooksAt(WindowAt(BookAll(s, ids, current, snap), w), id) == LooksAt(WindowAt(s.windows, w), id)
    decreases |ids|
  {
    if ids != {} {
      var one := Any(ids);
      ApplyAllLooks(s.grid, s.windows, s.nextWindow, VisitsFor(s.previous[one], current, snap), w, id);
      BookAllLooks(BookOne(s, one, current, snap), ids - {one}, current, snap, w, id);
    }
  }

  // ---------------------------------------------------------------- counting does

  lemma ObservationLooks(g: Grid, ws: map<int, Window>, next: nat, at: nat, c: Sample, w: nat, id: Identity)
    ensures var before := LooksAt(WindowAt(ws, w), id);
            LooksAt(WindowAt(Observation(g, ws, next, at, c), w), id) ==
            before.(samples := before.samples + One(next <= w && w == at && c.id == id))
  {
  }

  lemma {:induction false} CountLooks(s: Sampler, ws: map<int, Window>, samples: seq<Sample>, w: nat, id: Identity)
    requires s.grid.Valid()
    ensures var before := LooksAt(WindowAt(ws, w), id);
            LooksAt(WindowAt(CountSamples(s, ws, samples), w), id) ==
            before.(samples := before.samples + if s.nextWindow <= w
                                                then Sightings(s.grid, !s.initialized, samples, id, w) else 0)
  {
    if samples != [] {
      var rest, last := samples[..|samples| - 1], samples[|samples| - 1];
      CountLooks(s, ws, rest, w, id);
      var at := ObservationIndex(s, last.timestamp);
      ObservationLooks(s.grid, CountSamples(s, ws, rest), s.nextWindow, at, last, w, id);
    }
  }

  /** A window once a scan has been counted in it, or not. */
  function Scanned(before: Looks, snap: Snapshot, counted: bool): Looks {
    if !counted then before
    else before.(scans := before.scans + 1, longest := Max(before.longest, snap.finishedAt - snap.startedAt),
                 named := if snap.samplingMethod != "" then snap.samplingMethod else before.named)
  }

  lemma RecordLooks(s: Sampler, snap: Snapshot, w: nat, id: Identity)
    requires s.grid.Valid() && 0 <= LooksAt(WindowAt(s.windows, w), id).longest && snap.startedAt <= snap.finishedAt
    ensures LooksAt(WindowAt(RecordScan(s, snap), w), id) ==
            Scanned(LooksAt(WindowAt(s.windows, w), id), snap,
                    w in ScanIndices(s, snap.startedAt, snap.finishedAt) && s.nextWindow <= w)
  {
  }

  /** A scan that ends after it starts and after the origin reaches the window just before its end. */
  lemma ReachesSome(g: Grid, next: nat, a: int, b: int)
    requires g.Valid() && a < b && g.origin < b && (0 < next ==> g.Start(next) <= a)
    ensures g.Touched(next, a, b) != {}
  {
    var w := g.Index(b - 1);
    NotBefore(g, next, b - 1);
    assert w in g.Touched(next, a, b);
  }

  /** The windows that count a scan, for a scan that starts past the emitted ones. */
  lemma IndicesMean(s: Sampler, a: int, b: int, w: nat)
    requires s.grid.Valid() && a <= b && (0 < s.nextWindow ==> s.grid.Start(s.nextWindow) <= a)
    ensures w in ScanIndices(s, a, b) && s.nextWindow <= w <==> Scans(s.grid, a, b, w)
  {
    var g, next := s.grid, s.nextWindow;
    g.Ordered(0, w);
    if 0 < next { g.Ordered(0, next); }
    NotBefore(g, next, b);
    if w < next { g.Ordered(w, next); }
    if a < b && g.origin < b { ReachesSome(g, next, a, b); }
  }

  // ---------------------------------------------------------------- one scan

  /** What a scan leaves of a window's counts. */
  function After(before: Looks, g: Grid, first: bool, snap: Snapshot, w: nat, id: Identity): Looks
    requires g.Valid()
  {
    Scanned(before, snap, Scans(g, snap.startedAt, snap.finishedAt, w)).(
      samples := before.samples + Sightings(g, first, snap.samples, id, w))
  }

  lemma {:induction false} NoSightings(g: Grid, samples: seq<Sample>, id: Identity, next: nat, w: nat)
    requires g.Valid() && w < next && forall c :: c in samples ==> g.Start(next) <= c.timestamp
    ensures Sightings(g, false, samples, id, w) == 0
  {
    if samples != [] {
      var c := samples[|samples| - 1];
      assert c in samples;
      NotBefore(g, next, c.timestamp);
      NoSightings(g, samples[..|samples| - 1], id, next, w);
    }
  }

  /** A scan reaches no emitted window. */
  lemma EmittedLooks(r: SampleRun, snap: Snapshot, last: int, w: nat, id: Identity)
    requires Settled(r, last) && Bracketed(snap, last) && w < r.s.nextWindow
    ensures LooksAt(WindowOf(Scan(r, snap), w), id) == LooksAt(WindowOf(r, w), id)
    ensures After(LooksAt(WindowOf(r, w), id), r.s.grid, false, snap, w, id) == LooksAt(WindowOf(r, w), id)
  {
    EmittedWindow(r, snap, last, w);
    NoSightings(r.s.grid, snap.samples, id, r.s.nextWindow, w);
    IndicesMean(r.s, snap.startedAt, snap.finishedAt, w);
  }

  lemma CountedLooks(s: Sampler, snap: Snapshot, w: nat, id: Identity)
    requires s.grid.Valid() && s.nextWindow <= w && snap.startedAt <= snap.finishedAt
    requires 0 < s.nextWindow ==> s.grid.Start(s.nextWindow) <= snap.startedAt
    requires 0 <= LooksAt(WindowAt(s.windows, w), id).longest
    ensures LooksAt(WindowAt(CountSamples(s, RecordScan(s, snap), snap.samples), w), id) ==
            After(LooksAt(WindowAt(s.windows, w), id), s.grid, !s.initialized, snap, w, id)
  {
    RecordLooks(s, snap, w, id);
    IndicesMean(s, snap.startedAt, snap.finishedAt, w);
    CountLooks(s, RecordScan(s, snap), snap.samples, w, id);
  }

  lemma OpenLooks(r: SampleRun, snap: Snapshot, last: int, w: nat, id: Identity)
    requires Settled(r, last) && Bracketed(snap, last) && r.s.initialized && r.s.nextWindow <= w
    requires 0 <= LooksAt(WindowOf(r, w), id).longest
    ensures LooksAt(WindowOf(Scan(r, snap), w), id) ==
            After(LooksAt(WindowOf(r, w), id), r.s.grid, false, snap, w, id)
  {
    OpenWindow(r, snap, last, w);
    CountedLooks(r.s, snap, w, id);
    var counted := r.s.(windows := CountSamples(r.s, RecordScan(r.s, snap), snap.samples));
    BookAllLooks(counted, r.s.previous.Keys, ByIdentity(snap.samples), snap, w, id);
  }

  lemma FirstLooks(r: SampleRun, snap: Snapshot, last: int, w: nat, id: Identity)
    requires Settled(r, last) && Bracketed(snap, last) && !r.s.initialized
    ensures LooksAt(WindowOf(Scan(r, snap), w), id) ==
            After(LooksAt(WindowOf(r, w), id), Scan(r, snap).s.grid, true, snap, w, id)
  {
    var placed := r.s.(grid := if r.s.fixedOrigin then r.s.grid else r.s.grid.(origin := snap.finishedAt));
    CountedLooks(placed, snap, w, id);
  }

  /** One scan adds to each window of its reach one scan and its length, if that is the longest, and to each row
      the samples whose time lies in its window. */
  lemma ScanLooks(r: SampleRun, snap: Snapshot, last: int, w: nat, id: Identity)
    requires Settled(r, last) && Bracketed(snap, last) && 0 <= LooksAt(WindowOf(r, w), id).longest
    ensures Scan(r, snap).s.grid.Valid()
    ensures LooksAt(WindowOf(Scan(r, snap), w), id) ==
            After(LooksAt(WindowOf(r, w), id), Scan(r, snap).s.grid, !r.s.initialized, snap, w, id)
  {
    if !r.s.initialized {
      FirstLooks(r, snap, last, w, id);
    } else if w < r.s.nextWindow {
      EmittedLooks(r, snap, last, w, id);
    } else {
      OpenLooks(r, snap, last, w, id);
    }
  }

  // ---------------------------------------------------------------- runs

  lemma GridsValid(states: seq<SampleRun>, snaps: seq<Snapshot>, i: nat)
    requires Runs(states, snaps) && i <= |snaps|
    ensures states[i].s.grid.Valid()
  {
    if i != 0 { RunSettles(states, snaps, i - 1); }
  }

  /** The scans among the first `n` that reach a window, the longest of them, and the thread's samples in it. */
  ghost function Expected(states: seq<SampleRun>, snaps: seq<Snapshot>, n: nat, w: nat, id: Identity): (x: Looks)
    requires Runs(states, snaps) && n <= |snaps|
    ensures 0 <= x.longest
  {
    if n == 0 then Looks(0, 0, 0, "procfs_midpoint")
    else
      GridsValid(states, snaps, n);
      After(Expected(states, snaps, n - 1, w, id), states[n].s.grid, n == 1, snaps[n - 1], w, id)
  }

  lemma FirstIsFirst(states: seq<SampleRun>, snaps: seq<Snapshot>, i: nat)
    requires Runs(states, snaps) && i <= |snaps|
    ensures states[i].s.initialized <==> i != 0
  {
    if i != 0 { RunSettles(states, snaps, i - 1); }
  }

  /** In every window of every run, emitted or pending: the scans that reached it, the longest of them, and for
      each thread the samples taken in it, under the name of the last of those scans that had one. */
  lemma {:induction false} LooksCounted(states: seq<SampleRun>, snaps: seq<Snapshot>, n: nat, w: nat, id: Identity)
    requires Runs(states, snaps) && n <= |snaps|
    ensures LooksAt(WindowOf(states[n], w), id) == Expected(states, snaps, n, w, id)
  {
    if n != 0 {
      LooksCounted(states, snaps, n - 1, w, id);
      ScanReady(states, snaps, n - 1);
      FirstIsFirst(states, snaps, n - 1);
      assert StepAt(states, snaps, n - 1) && FollowsOn(snaps, n - 1);
      ScanLooks(states[n - 1], snaps[n - 1], ScannedUntil(snaps, n - 1), w, id);
    }
  }
}
