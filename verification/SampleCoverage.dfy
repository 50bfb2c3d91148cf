/** Sampled rows account for all the time their samples span. */
module SampleCoverage {
  import opened Wrappers
  import opened Windows
  import opened Model
  import opened Snapshots
  import opened SampleTimeline
  import opened SampleRuns
  import opened SampleGauges
  import opened SampleThreads
  import opened Conservation
  import opened Uncertainty

  // ---------------------------------------------------------------- durations make the total

  /** A thread's durations in a window, over all states. */
  function SpentInAll(win: Window, id: Identity): int { OverStates(s => ValueOf(win, id, SpentIn(s))) }

  function GainsInAllStates(g: Grid, vs: seq<Visit>, w: nat): int {
    OverStates(s => GainInAll(g, 0, vs, w, SpentIn(s)))
  }

  function OneGainInAllStates(g: Grid, v: Visit, w: nat): int { OverStates(s => GainIn(g, 0, v, w, SpentIn(s))) }

  lemma OneVisitBalances(g: Grid, v: Visit, w: nat)
    ensures GainIn(g, 0, v, w, Observed) == OneGainInAllStates(g, v, w)
  {
    if v.what.Segment? {
      match v.what.state {
        case Running => case Sleeping => case Uninterruptible => case Stopped => case TracingStop =>
        case Zombie => case Dead => case Idle => case Unknown =>
      }
    }
  }

  lemma {:induction false} VisitsBalance(g: Grid, vs: seq<Visit>, w: nat)
    ensures GainInAll(g, 0, vs, w, Observed) == GainsInAllStates(g, vs, w)
  {
    if vs != [] {
      VisitsBalance(g, vs[..|vs| - 1], w);
      OneVisitBalances(g, vs[|vs| - 1], w);
      AllStatesStep(g, vs, w);
    }
  }

  lemma AllStatesStep(g: Grid, vs: seq<Visit>, w: nat)
    requires vs != []
    ensures GainsInAllStates(g, vs, w) ==
            GainsInAllStates(g, vs[..|vs| - 1], w) + OneGainInAllStates(g, vs[|vs| - 1], w)
  {
  }

  lemma ScanBalances(states: seq<SampleRun>, snaps: seq<Snapshot>, m: nat, id: Identity, w: nat)
    requires Runs(states, snaps) && m < |snaps|
    ensures GainAt(states, m, w, id, Observed) == OverStates(s => GainAt(states, m, w, id, SpentIn(s)))
  {
    forall k ensures GainAt(states, m, w, id, k) == ScanGain(states[m], snaps[m], w, id, k) {
      GainIsGauged(states, snaps, m, w, id, k);
    }
    if id in states[m].s.previous {
      VisitsBalance(states[m].s.grid, VisitsFor(states[m].s.previous[id], ByIdentity(snaps[m].samples), snaps[m]), w);
    }
  }

  /** In every window of every run, emitted or pending, a row's total is the sum of its durations. */
  lemma {:induction false} DurationsMakeTotal(states: seq<SampleRun>, snaps: seq<Snapshot>, n: nat, id: Identity,
                                              w: nat)
    requires Runs(states, snaps) && n <= |snaps|
    ensures ValueOf(WindowOf(states[n], w), id, Observed) == SpentInAll(WindowOf(states[n], w), id)
  {
    if n == 0 {
      forall k ensures ValueOf(WindowOf(states[0], w), id, k) == 0 { StartsEmpty(states, snaps, w, id, k); }
    } else {
      DurationsMakeTotal(states, snaps, n - 1, id, w);
      ScanBalances(states, snaps, n - 1, id, w);
    }
  }

  // ---------------------------------------------------------------- exact coverage

  /** A gap's time, midpoint or not, is handed out whole. */
  lemma GapCovered(g: Grid, p: Sample, c: Sample, end: int, w: nat)
    requires g.Valid() && p.timestamp < end
    ensures GapGains(g, p, c, end, w, Observed) == g.Overlap(p.timestamp, end, w)
  {
    var vs := StateVisits(p, c, end);
    OnlyStateVisits(g, p, c, end, w, Observed);
    if p.state == c.state {
      assert vs[..0] == [];
    } else {
      SumOfThree(g, vs, w, Observed);
    }
  }

  /** A thread that vanishes is charged up to the scan that misses it. */
  lemma LossCovered(g: Grid, p: Sample, end: int, w: nat)
    requires g.Valid() && p.timestamp < end
    ensures GainInAll(g, 0, LossVisits(p, end), w, Observed) == g.Overlap(p.timestamp, end, w)
  {
    var vs := LossVisits(p, end);
    assert vs == [vs[0]] + vs[1..];
    GainsJoin(g, 0, [vs[0]], vs[1..], w, Observed);
    assert [vs[0]][..0] == [];
    SumOfThree(g, vs[1..], w, Observed);
  }

  /** Between two runs, the thread's row of window `w` gained exactly the time of `[from, to)`. */
  predicate Covers(before: SampleRun, after: SampleRun, id: Identity, g: Grid, from: int, to: int, w: nat) {
    && from <= to
    && ValueOf(WindowOf(after, w), id, Observed) - ValueOf(WindowOf(before, w), id, Observed) == g.Overlap(from, to, w)
  }

  lemma CoversNothing(r: SampleRun, id: Identity, g: Grid, at: int, w: nat)
    ensures Covers(r, r, id, g, at, at, w)
  {
  }

  /** In one scan. */
  lemma ScanCovers(states: seq<SampleRun>, snaps: seq<Snapshot>, i: nat, p: Sample, c: Sample, id: Identity, w: nat)
    requires Runs(states, snaps) && i + 1 < |snaps| && LastSample(snaps[i].samples, id) == Some(p)
    requires LastSample(snaps[i + 1].samples, id) == Some(c) && states[i + 1].s.grid.Valid()
    ensures Covers(states[i + 1], states[i + 2], id, states[i + 1].s.grid, p.timestamp, c.timestamp, w)
  {
    InTurn(snaps, i, p, c, id);
    SeenTwice(states, snaps, i, p, c, w, id, Observed);
    if p.timestamp < c.timestamp { GapCovered(states[i + 1].s.grid, p, c, c.timestamp, w); }
  }

  lemma CoversAdd(before: SampleRun, mid: SampleRun, after: SampleRun, id: Identity, g: Grid, from: int, at: int,
                  to: int, w: nat)
    requires g.Valid() && Covers(before, mid, id, g, from, at, w) && Covers(mid, after, id, g, at, to, w)
    ensures Covers(before, after, id, g, from, to, w)
  {
  }

  /** A thread that the scans from `a` on before `b` see gets over those scans, in every window, exactly the
      wall time between its first and its last sample there: a whole interval where the window lies within. */
  lemma {:induction false} SampledCoverage(states: seq<SampleRun>, snaps: seq<Snapshot>, a: nat, b: nat,
                                           seen: seq<Sample>, id: Identity, w: nat)
    requires Runs(states, snaps) && seen != [] && Shows(snaps, a, b, seen, id)
    ensures Covers(states[a + 1], states[b], id, states[a + 1].s.grid, seen[0].timestamp, seen[|seen| - 1].timestamp, w)
    decreases |seen|
  {
    var g, first, last := states[a + 1].s.grid, seen[0].timestamp, seen[|seen| - 1].timestamp;
    if |seen| == 1 {
      CoversNothing(states[b], id, g, first, w);
    } else {
      GridStays(states, snaps, a);
      ScanCovers(states, snaps, a, seen[0], seen[1], id, w);
      SampledCoverage(states, snaps, a + 1, b, seen[1..], id, w);
      CoversAdd(states[a + 1], states[a + 2], states[b], id, g, first, seen[1].timestamp, last, w);
    }
  }

  /** The scan that misses a thread charges it up to the scan's start, and later scans nothing. */
  lemma CoverageEnds(states: seq<SampleRun>, snaps: seq<Snapshot>, i: nat, id: Identity, w: nat)
    requires Runs(states, snaps) && i + 1 < |snaps| && LastSample(snaps[i + 1].samples, id) == None
    ensures var g := states[i + 1].s.grid;
            GainAt(states, i + 1, w, id, Observed) ==
            match LastSample(snaps[i].samples, id)
            case Some(p) => g.Overlap(p.timestamp, snaps[i + 1].startedAt, w)
            case None => 0
  {
    GridStays(states, snaps, i);
    match LastSample(snaps[i].samples, id) {
      case Some(p) =>
        SeenLast(states, snaps, i, p, w, id, Observed);
        if p.timestamp < snaps[i + 1].startedAt { LossCovered(states[i + 1].s.grid, p, snaps[i + 1].startedAt, w); }
      case None => UnseenBefore(states, snaps, i, w, id, Observed);
    }
  }
}
