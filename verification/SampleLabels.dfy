/** What rows say about where their counters came from: the source of the scheduler fields, the version and
    switches of taskstats, and the resources it covered. */
module SampleLabels {
  import opened Wrappers
  import opened Windows
  import opened Model
  import opened Snapshots
  import opened SampleTimeline
  import opened SampleOrder
  import opened SampleRuns
  import opened SampleGauges
  import opened SampleThreads
  import opened Conservation
  import opened Restarts

  datatype Labels = Labels(source: string, version: nat, enabled: bool, known: bool, covered: set<Resource>)

  const BLANK := Labels("", 0, false, false, {})

  function LabelsOf(row: Row): Labels {
    Labels(row.sched.source, row.delay.version, row.delay.enabled, row.delay.enabledKnown,
           set r: Resource | row.delay.shares.At(r).available)
  }

  function LabelsAt(win: Window, id: Identity): Labels { if id in win.stats then LabelsOf(win.stats[id]) else BLANK }

  /** Labels once a visit has reached their row. */
  function Relabel(l: Labels, what: What): Labels {
    match what
    case Counters(_, _, _) => l.(source := SCHEDSTAT)
    case DelayShares(d, _, _) => Labels(l.source, d.version, d.enabled, d.enabledKnown,
                                        l.covered + set r: Resource | d.deltas.At(r).available)
    case _ => l
  }

  function RelabelIn(g: Grid, floor: nat, l: Labels, v: Visit, w: int): Labels {
    if Reaches(g, floor, v, w) then Relabel(l, v.what) else l
  }

  function RelabelAll(g: Grid, floor: nat, l: Labels, vs: seq<Visit>, w: int): Labels {
    if vs == [] then l else RelabelIn(g, floor, RelabelAll(g, floor, l, vs[..|vs| - 1], w), vs[|vs| - 1], w)
  }

  lemma SharesCovered(k: Delay, d: DelayDelta, start: int, end: int, lo: int, hi: int, r: Resource)
    requires lo <= hi
    ensures AddDelays(k, d, start, end, lo, hi).shares.At(r).available <==>
            k.shares.At(r).available || d.deltas.At(r).available
  {
  }

  lemma EffectRelabels(what: What, lo: int, hi: int, row: Row)
    requires lo <= hi
    ensures LabelsOf(Effect(what, lo, hi, row)) == Relabel(LabelsOf(row), what)
  {
    if what.DelayShares? {
      forall r ensures Effect(what, lo, hi, row).delay.shares.At(r).available <==>
                       row.delay.shares.At(r).available || what.delay.deltas.At(r).available {
        SharesCovered(row.delay, what.delay, what.start, what.end, lo, hi, r);
      }
      assert LabelsOf(Effect(what, lo, hi, row)).covered == Relabel(LabelsOf(row), what).covered;
    }
  }

  lemma FreshLabels(g: Grid, w: int, win: Window, s: Sample)
    ensures LabelsOf(RowFor(g, w, win, s)) == LabelsAt(win, s.id)
  {
  }

  lemma ApplyRelabels(g: Grid, ws: map<int, Window>, floor: nat, v: Visit, w: int, id: Identity)
    requires g.Valid()
    ensures LabelsAt(WindowAt(Apply(g, ws, floor, v), w), id) ==
            if v.sample.id == id then RelabelIn(g, floor, LabelsAt(WindowAt(ws, w), id), v, w)
            else LabelsAt(WindowAt(ws, w), id)
  {
    ApplyAt(g, ws, floor, v, w);
    if Reaches(g, floor, v, w) {
      FreshLabels(g, w, WindowAt(ws, w), v.sample);
      EffectRelabels(v.what, Max(v.lo, g.Start(w)), Min(v.hi, g.End(w)), RowFor(g, w, WindowAt(ws, w), v.sample));
    }
  }

  lemma {:induction false} ApplyAllRelabels(g: Grid, ws: map<int, Window>, floor: nat, vs: seq<Visit>,
                                            owner: Identity, w: int, id: Identity)
    requires g.Valid() && AllFor(vs, owner)
    ensures LabelsAt(WindowAt(ApplyAll(g, ws, floor, vs), w), id) ==
            if owner == id then RelabelAll(g, floor, LabelsAt(WindowAt(ws, w), id), vs, w)
            else LabelsAt(WindowAt(ws, w), id)
  {
    if vs != [] {
      var rest := vs[..|vs| - 1];
      ApplyAllRelabels(g, ws, floor, rest, owner, w, id);
      ApplyRelabels(g, ApplyAll(g, ws, floor, rest), floor, vs[|vs| - 1], w, id);
    }
  }

  lemma {:induction false} BookAllRelabels(s: Sampler, ids: set<Identity>, current: map<Identity, Sample>,
                                           snap: Snapshot, w: int, id: Identity)
    requires s.Valid() && Keyed(current) && ids <= s.previous.Keys
    ensures LabelsAt(WindowAt(BookAll(s, ids, current, snap), w), id) ==
            if id in ids then RelabelAll(s.grid, s.nextWindow, LabelsAt(WindowAt(s.windows, w), id),
                                         VisitsFor(s.previous[id], current, snap), w)
            else LabelsAt(WindowAt(s.windows, w), id)
    decreases |ids|
  {
    if ids != {} {
      var one := Any(ids);
      var vs := VisitsFor(s.previous[one], current, snap);
      OwnVisits(s.previous[one], current, snap);
      ApplyAllRelabels(s.grid, s.windows, s.nextWindow, vs, one, w, id);
      BookAllRelabels(BookOne(s, one, current, snap), ids - {one}, current, snap, w, id);
    }
  }

  lemma ObservationRelabelsNothing(g: Grid, ws: map<int, Window>, next: nat, at: nat, c: Sample, w: int, id: Identity)
    ensures LabelsAt(WindowAt(Observation(g, ws, next, at, c), w), id) == LabelsAt(WindowAt(ws, w), id)
  {
    FreshLabels(g, at, WindowAt(ws, at), c);
  }

  lemma {:induction false} CountRelabelsNothing(s: Sampler, ws: map<int, Window>, samples: seq<Sample>, w: int,
                                                id: Identity)
    requires s.grid.Valid()
    ensures LabelsAt(WindowAt(CountSamples(s, ws, samples), w), id) == LabelsAt(WindowAt(ws, w), id)
  {
    if samples != [] {
      var rest, last := samples[..|samples| - 1], samples[|samples| - 1];
      CountRelabelsNothing(s, ws, rest, w, id);
      var at := ObservationIndex(s, last.timestamp);
      ObservationRelabelsNothing(s.grid, CountSamples(s, ws, rest), s.nextWindow, at, last, w, id);
    }
  }

  lemma {:induction false} RelabelsFromOpen(g: Grid, next: nat, l: Labels, vs: seq<Visit>, w: nat)
    requires g.Valid() && AllFrom(vs, g, next)
    ensures RelabelAll(g, next, l, vs, w) == RelabelAll(g, 0, l, vs, w)
    ensures w < next ==> RelabelAll(g, 0, l, vs, w) == l
  {
    if vs != [] {
      RelabelsFromOpen(g, next, l, vs[..|vs| - 1], w);
      if w < next { g.Ordered(w, next); }
    }
  }

  /** What one scan makes of a thread's labels. */
  ghost function ScanRelabel(r: SampleRun, snap: Snapshot, l: Labels, w: nat, id: Identity): Labels {
    if id in r.s.previous
    then RelabelAll(r.s.grid, 0, l, VisitsFor(r.s.previous[id], ByIdentity(snap.samples), snap), w) else l
  }

  lemma OwnRelabels(r: SampleRun, snap: Snapshot, last: int, l: Labels, w: nat, id: Identity)
    requires Settled(r, last) && id in r.s.previous
    ensures var vs := VisitsFor(r.s.previous[id], ByIdentity(snap.samples), snap);
            RelabelAll(r.s.grid, 0, l, vs, w) ==
            if w < r.s.nextWindow then l else RelabelAll(r.s.grid, r.s.nextWindow, l, vs, w)
  {
    VisitsFrom(r.s.previous[id], ByIdentity(snap.samples), snap, r.s.grid, r.s.nextWindow);
    RelabelsFromOpen(r.s.grid, r.s.nextWindow, l, VisitsFor(r.s.previous[id], ByIdentity(snap.samples), snap), w);
  }

  lemma BookedRelabels(s: Sampler, snap: Snapshot, w: nat, id: Identity)
    requires s.Valid()
    ensures LabelsAt(WindowAt(Booked(s, snap).windows, w), id) ==
            if id in s.previous
            then RelabelAll(s.grid, s.nextWindow, LabelsAt(WindowAt(s.windows, w), id),
                            VisitsFor(s.previous[id], ByIdentity(snap.samples), snap), w)
            else LabelsAt(WindowAt(s.windows, w), id)
  {
    var counted := s.(windows := CountSamples(s, RecordScan(s, snap), snap.samples));
    CountRelabelsNothing(s, RecordScan(s, snap), snap.samples, w, id);
    BookAllRelabels(counted, s.previous.Keys, ByIdentity(snap.samples), snap, w, id);
  }

  lemma FirstRelabels(s: Sampler, snap: Snapshot, w: int, id: Identity)
    requires s.grid.Valid()
    ensures LabelsAt(WindowAt(First(s, snap).windows, w), id) == LabelsAt(WindowAt(s.windows, w), id)
  {
    var placed := s.(grid := if s.fixedOrigin then s.grid else s.grid.(origin := snap.finishedAt));
    CountRelabelsNothing(placed, RecordScan(placed, snap), snap.samples, w, id);
  }

  lemma ScanRelabels(r: SampleRun, snap: Snapshot, last: int, w: nat, id: Identity)
    requires Settled(r, last) && Bracketed(snap, last)
    ensures LabelsAt(WindowOf(Scan(r, snap), w), id) == ScanRelabel(r, snap, LabelsAt(WindowOf(r, w), id), w, id)
  {
    if !r.s.initialized {
      FirstRelabels(r.s, snap, w, id);
    } else {
      if id in r.s.previous { OwnRelabels(r, snap, last, LabelsAt(WindowOf(r, w), id), w, id); }
      if w < r.s.nextWindow {
        EmittedWindow(r, snap, last, w);
      } else {
        OpenWindow(r, snap, last, w);
        BookedRelabels(r.s, snap, w, id);
      }
    }
  }

  // ---------------------------------------------------------------- one gap

  /** Labels after a gap: schedstat is named once its readings go on; taskstats is quoted from the newer sample once
      some resource goes on or restarts, and covers the resources that go on. */
  ghost predicate Relabelled(l: Labels, k: Labels, p: Sample, c: Sample) {
    && k.source == (if SameSchedstat(p.schedstat, c.schedstat) then "proc_schedstat" else l.source)
    && (if GoesOn(p.delays, c.delays) || 0 < HowMany(p.delays, c.delays)
        then k.version == c.delays.version && k.enabled == c.delays.enabled && k.known == c.delays.enabledKnown
        else k.version == l.version && k.enabled == l.enabled && k.known == l.known)
    && forall r :: r in k.covered <==> r in l.covered || SameCounter(p.delays, c.delays, r)
  }

  lemma {:induction false} RelabelsJoin(g: Grid, l: Labels, a: seq<Visit>, b: seq<Visit>, w: int)
    ensures RelabelAll(g, 0, l, a + b, w) == RelabelAll(g, 0, RelabelAll(g, 0, l, a, w), b, w)
  {
    if b == [] {
      assert a + b == a;
    } else {
      assert (a + b)[..|a + b| - 1] == a + b[..|b| - 1];
      RelabelsJoin(g, l, a, b[..|b| - 1], w);
    }
  }

  lemma {:induction false} NoRelabel(g: Grid, l: Labels, vs: seq<Visit>, w: int)
    requires forall v :: v in vs ==> !v.what.Counters? && !v.what.DelayShares?
    ensures RelabelAll(g, 0, l, vs, w) == l
  {
    if vs != [] {
      assert vs[|vs| - 1] in vs;
      NoRelabel(g, l, vs[..|vs| - 1], w);
    }
  }

  lemma OneRelabel(g: Grid, l: Labels, v: Visit, w: int)
    ensures RelabelAll(g, 0, l, [v], w) == RelabelIn(g, 0, l, v, w) && RelabelAll(g, 0, l, [], w) == l
  {
    assert [v][..0] == [];
  }

  lemma SchedRelabels(g: Grid, l: Labels, p: Sample, c: Sample, end: int, w: nat)
    requires 0 < g.Overlap(p.timestamp, end, w)
    ensures RelabelAll(g, 0, l, SchedVisits(p, c, end), w) ==
            l.(source := if SameSchedstat(p.schedstat, c.schedstat) then "proc_schedstat" else l.source)
  {
    var vs := SchedVisits(p, c, end);
    OneRelabel(g, l, if vs == [] then Visit(p, 0, 0, SchedReset) else vs[0], w);
  }

  lemma CoveredByDelta(p: Delays, c: Delays)
    requires p.available && c.available
    ensures forall r :: DelayDeltaOf(p, c).deltas.At(r).available <==> SameCounter(p, c, r)
  {
    forall r ensures DelayDeltaOf(p, c).deltas.At(r).available <==> SameCounter(p, c, r) { DeltaAt(p, c, r); }
  }

  lemma NoneGoesOn(p: Delays, c: Delays, r: Resource)
    requires !GoesOn(p, c)
    ensures !SameCounter(p, c, r)
  {
    match r { case CPU => case BlockIO => case SwapIn => case Reclaim =>
              case Thrashing => case Compaction => case WriteProtectCopy => case IRQ => }
  }

  /** The taskstats part of a gap. */
  ghost predicate Quoted(l: Labels, k: Labels, p: Delays, c: Delays) {
    && k.source == l.source
    && (if GoesOn(p, c) || 0 < HowMany(p, c)
        then k.version == c.version && k.enabled == c.enabled && k.known == c.enabledKnown
        else k.version == l.version && k.enabled == l.enabled && k.known == l.known)
    && forall r :: r in k.covered <==> r in l.covered || SameCounter(p, c, r)
  }

  lemma DelayRelabels(g: Grid, l: Labels, p: Sample, c: Sample, end: int, w: nat)
    requires 0 < g.Overlap(p.timestamp, end, w)
    ensures Quoted(l, RelabelAll(g, 0, l, DelayVisits(p, c, end), w), p.delays, c.delays)
  {
    var vs := DelayVisits(p, c, end);
    OneRelabel(g, l, if vs == [] then Visit(p, 0, 0, SchedReset) else vs[0], w);
    if p.delays.available && c.delays.available {
      ComparableMeans(p.delays, c.delays);
      ResetsCounted(p.delays, c.delays);
      CoveredByDelta(p.delays, c.delays);
    }
    if vs == [] {
      forall r ensures !SameCounter(p.delays, c.delays, r) { NoneGoesOn(p.delays, c.delays, r); }
    }
  }

  lemma GapRelabels(g: Grid, l: Labels, p: Sample, c: Sample, end: int, w: nat)
    requires p.timestamp < end && 0 < g.Overlap(p.timestamp, end, w)
    ensures Relabelled(l, RelabelAll(g, 0, l, GapVisits(p, c, end), w), p, c)
  {
    var a, b, t := SchedVisits(p, c, end), DelayVisits(p, c, end), TimePart(p, c, end);
    GapInOrder(p, c, end);
    RelabelsJoin(g, l, a + b, t, w);
    RelabelsJoin(g, l, a, b, w);
    TimePartPlain(p, c, end);
    NoRelabel(g, RelabelAll(g, 0, l, a + b, w), t, w);
    SchedRelabels(g, l, p, c, end, w);
    DelayRelabels(g, RelabelAll(g, 0, l, a, w), p, c, end, w);
  }

  // ---------------------------------------------------------------- runs

  lemma LabelStep(states: seq<SampleRun>, snaps: seq<Snapshot>, i: nat, w: nat, id: Identity)
    requires Runs(states, snaps) && i < |snaps|
    ensures LabelsAt(WindowOf(states[i + 1], w), id) ==
            ScanRelabel(states[i], snaps[i], LabelsAt(WindowOf(states[i], w), id), w, id)
  {
    ScanReady(states, snaps, i);
    assert StepAt(states, snaps, i) && FollowsOn(snaps, i);
    ScanRelabels(states[i], snaps[i], ScannedUntil(snaps, i), w, id);
  }

  /** In every window that the gap between two successive samples of a thread reaches, the row's labels after the
      second scan follow from those before it and from the two samples. */
  lemma LabelsFollow(states: seq<SampleRun>, snaps: seq<Snapshot>, i: nat, p: Sample, c: Sample, w: nat, id: Identity)
    requires Runs(states, snaps) && i + 1 < |snaps| && p.timestamp < c.timestamp
    requires LastSample(snaps[i].samples, id) == Some(p) && LastSample(snaps[i + 1].samples, id) == Some(c)
    requires 0 < states[i + 1].s.grid.Overlap(p.timestamp, c.timestamp, w)
    ensures Relabelled(LabelsAt(WindowOf(states[i + 1], w), id), LabelsAt(WindowOf(states[i + 2], w), id), p, c)
  {
    LabelStep(states, snaps, i + 1, w, id);
    ScanWaits(states, snaps, i, id);
    LastIsKept(snaps[i + 1].samples, id);
    InScan(snaps, i, p, id);
    InScan(snaps, i + 1, c, id);
    GapRelabels(states[i + 1].s.grid, LabelsAt(WindowOf(states[i + 1], w), id), p, c, c.timestamp, w);
  }
}
