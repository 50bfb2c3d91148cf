/** Counters are conserved over whole runs of the snapshot accumulator. */
module Conservation {
  import opened Wrappers
  import opened Windows
  import opened Machine
  import opened Proportion
  import opened Model
  import opened Snapshots
  import opened SampleTimeline
  import opened SampleRuns
  import opened SampleGauges
  import opened SampleThreads

  predicate IsCounter(k: Gauge) { k.OnCPUTime? || k.QueueTime? || k.Slices? || k.DelayCount? || k.DelayTotal? }

  /** A sample's cumulative reading. */
  function Reading(s: Sample, k: Gauge): uint64
    requires IsCounter(k)
  {
    match k
    case OnCPUTime => s.schedstat.onCPU
    case QueueTime => s.schedstat.runqueue
    case Slices => s.schedstat.timeslices
    case DelayCount(r) => s.delays.counters.At(r).count
    case DelayTotal(r) => s.delays.counters.At(r).total
  }

  /** Both scans read the resource, and neither its count nor its total went down. */
  predicate SameCounter(p: Delays, c: Delays, r: Resource) {
    var a, b := p.counters.At(r), c.counters.At(r);
    p.available && c.available && a.available && b.available && a.count <= b.count && a.total <= b.total
  }

  /** Both scans read schedstat, and none of its three numbers went down. */
  predicate SameSchedstat(p: Schedstat, c: Schedstat) {
    && p.available && c.available
    && p.onCPU <= c.onCPU && p.runqueue <= c.runqueue && p.timeslices <= c.timeslices
  }

  /** Two readings that can be subtracted: both present, none of the counter's group decreased, and a
      time delta that fits a duration. */
  predicate Continues(p: Sample, c: Sample, k: Gauge)
    requires IsCounter(k)
  {
    && (match k
        case DelayCount(r) => SameCounter(p.delays, c.delays, r)
        case DelayTotal(r) => SameCounter(p.delays, c.delays, r)
        case _ => SameSchedstat(p.schedstat, c.schedstat))
    && (!k.Slices? && !k.DelayCount? ==> Reading(c, k) - Reading(p, k) <= MAX_DURATION)
  }

  /** What the counter gained between two readings. */
  function Delta(p: Sample, c: Sample, k: Gauge): uint64
    requires IsCounter(k) && Continues(p, c, k)
  {
    Reading(c, k) - Reading(p, k)
  }

  lemma {:induction false} GainsJoin(g: Grid, floor: nat, a: seq<Visit>, b: seq<Visit>, w: int, k: Gauge)
    ensures GainInAll(g, floor, a + b, w, k) == GainInAll(g, floor, a, w, k) + GainInAll(g, floor, b, w, k)
  {
    if b == [] {
      assert a + b == a;
    } else {
      assert (a + b)[..|a + b| - 1] == a + b[..|b| - 1];
      GainsJoin(g, floor, a, b[..|b| - 1], w, k);
    }
  }

  /** A piece depends on the part of the window inside the gap only. */
  lemma PieceInWindow(g: Grid, value: uint64, start: int, end: int, w: int)
    requires g.Valid() && start < end
    ensures Piece(value, start, end, g.Start(w), g.End(w)) ==
            if 0 < g.Overlap(start, end, w)
            then Piece(value, start, end, Max(start, g.Start(w)), Min(end, g.End(w))) else 0
  {
  }

  lemma SchedGain(g: Grid, p: Sample, c: Sample, end: int, w: nat, k: Gauge)
    requires g.Valid() && p.timestamp < end && IsCounter(k) && Continues(p, c, k) && !k.DelayCount? && !k.DelayTotal?
    ensures GainInAll(g, 0, SchedVisits(p, c, end), w, k) ==
            Piece(Delta(p, c, k), p.timestamp, end, g.Start(w), g.End(w))
  {
    PieceInWindow(g, Delta(p, c, k), p.timestamp, end, w);
    var vs := SchedVisits(p, c, end);
    assert vs[..|vs| - 1] == [];
  }

  lemma DelayGain(g: Grid, p: Sample, c: Sample, end: int, w: nat, k: Gauge)
    requires g.Valid() && p.timestamp < end && IsCounter(k) && Continues(p, c, k) && (k.DelayCount? || k.DelayTotal?)
    ensures GainInAll(g, 0, DelayVisits(p, c, end), w, k) ==
            Piece(Delta(p, c, k), p.timestamp, end, g.Start(w), g.End(w))
  {
    PieceInWindow(g, Delta(p, c, k), p.timestamp, end, w);
    var d := DelayDeltaOf(p.delays, c.delays);
    assert d.deltas.At(k.r) == DeltaOf(p.delays.counters.At(k.r), c.delays.counters.At(k.r));
    assert d.Comparable() by { match k.r { case CPU => case BlockIO => case SwapIn => case Reclaim =>
                                           case Thrashing => case Compaction => case WriteProtectCopy => case IRQ => } }
    var vs := DelayVisits(p, c, end);
    assert vs[..|vs| - 1] == [];
  }

  /** Visits that carry no counter add nothing to one. */
  lemma {:induction false} NoCounterGain(g: Grid, vs: seq<Visit>, w: nat, k: Gauge)
    requires IsCounter(k)
    requires forall v :: v in vs ==> !v.what.Counters? && !v.what.DelayShares?
    ensures GainInAll(g, 0, vs, w, k) == 0
  {
    if vs != [] {
      assert vs[|vs| - 1] in vs;
      NoCounterGain(g, vs[..|vs| - 1], w, k);
    }
  }

  lemma OtherCounterGain(g: Grid, p: Sample, c: Sample, end: int, w: nat, k: Gauge)
    requires IsCounter(k)
    ensures k.DelayCount? || k.DelayTotal? ==> GainInAll(g, 0, SchedVisits(p, c, end), w, k) == 0
    ensures !k.DelayCount? && !k.DelayTotal? ==> GainInAll(g, 0, DelayVisits(p, c, end), w, k) == 0
  {
    var a, b := SchedVisits(p, c, end), DelayVisits(p, c, end);
    if a != [] { assert a[..|a| - 1] == []; }
    if b != [] { assert b[..|b| - 1] == []; }
  }

  /** What a gap asks for besides its counters. */
  function TimePart(p: Sample, c: Sample, end: int): seq<Visit> {
    [Visit(p, p.timestamp, end, Gap(end - p.timestamp))] + StateVisits(p, c, end)
  }

  lemma TimePartPlain(p: Sample, c: Sample, end: int)
    ensures forall v :: v in TimePart(p, c, end) ==> !v.what.Counters? && !v.what.DelayShares?
  {
  }

  lemma GapInOrder(p: Sample, c: Sample, end: int)
    requires p.timestamp < end
    ensures GapVisits(p, c, end) == SchedVisits(p, c, end) + DelayVisits(p, c, end) + TimePart(p, c, end)
  {
  }

  lemma GapInParts(g: Grid, p: Sample, c: Sample, end: int, w: nat, k: Gauge)
    requires p.timestamp < end && IsCounter(k)
    ensures GainInAll(g, 0, GapVisits(p, c, end), w, k) ==
            GainInAll(g, 0, SchedVisits(p, c, end), w, k) + GainInAll(g, 0, DelayVisits(p, c, end), w, k)
  {
    GapInOrder(p, c, end);
    GainsJoin(g, 0, SchedVisits(p, c, end) + DelayVisits(p, c, end), TimePart(p, c, end), w, k);
    GainsJoin(g, 0, SchedVisits(p, c, end), DelayVisits(p, c, end), w, k);
    TimePartPlain(p, c, end);
    NoCounterGain(g, TimePart(p, c, end), w, k);
  }

  /** A gap hands each window its proportional piece of the delta. */
  lemma GapGain(g: Grid, p: Sample, c: Sample, end: int, w: nat, k: Gauge)
    requires g.Valid() && p.timestamp < end && IsCounter(k) && Continues(p, c, k)
    ensures GainInAll(g, 0, GapVisits(p, c, end), w, k) ==
            Piece(Delta(p, c, k), p.timestamp, end, g.Start(w), g.End(w))
  {
    GapInParts(g, p, c, end, w, k);
    OtherCounterGain(g, p, c, end, w, k);
    if k.DelayCount? || k.DelayTotal? {
      DelayGain(g, p, c, end, w, k);
    } else {
      SchedGain(g, p, c, end, w, k);
    }
  }

  // ---------------------------------------------------------------- whole runs

  /** A thread's reading of a gauge over the first `n` windows, emitted and pending. */
  function Total(r: SampleRun, id: Identity, k: Gauge, n: nat): int {
    if n == 0 then 0 else Total(r, id, k, n - 1) + ValueOf(WindowOf(r, n - 1), id, k)
  }

  /** The counter never restarts between successive samples. */
  ghost predicate Continuous(seen: seq<Sample>, k: Gauge)
    requires IsCounter(k)
  {
    |seen| < 2 || (Continues(seen[0], seen[1], k) && Continuous(seen[1..], k))
  }

  /** The part of a gap's delta that precedes the origin, or all of it when no time passed. */
  function LostIn(p: Sample, c: Sample, origin: int, k: Gauge): int
    requires IsCounter(k) && Continues(p, c, k)
  {
    if c.timestamp <= p.timestamp then Delta(p, c, k) else ShareBy(Delta(p, c, k), p.timestamp, c.timestamp, origin)
  }

  ghost function Lost(seen: seq<Sample>, origin: int, k: Gauge): int
    requires IsCounter(k) && Continuous(seen, k)
  {
    if |seen| < 2 then 0 else LostIn(seen[0], seen[1], origin, k) + Lost(seen[1..], origin, k)
  }

  lemma {:induction false} TotalAdds(r: SampleRun, q: SampleRun, id: Identity, k: Gauge, value: uint64, start: int,
                                     end: int, n: nat)
    requires r.s.grid.Valid()
    requires forall w: nat :: ValueOf(WindowOf(q, w), id, k) == ValueOf(WindowOf(r, w), id, k)
               + Piece(value, start, end, r.s.grid.Start(w), r.s.grid.End(w))
    ensures Total(q, id, k, n) == Total(r, id, k, n) + Pieces(r.s.grid, value, start, end, n)
  {
    if n != 0 { TotalAdds(r, q, id, k, value, start, end, n - 1); }
  }

  lemma {:induction false} TotalSame(r: SampleRun, q: SampleRun, id: Identity, k: Gauge, n: nat)
    requires forall w: nat :: ValueOf(WindowOf(q, w), id, k) == ValueOf(WindowOf(r, w), id, k)
    ensures Total(q, id, k, n) == Total(r, id, k, n)
  {
    if n != 0 { TotalSame(r, q, id, k, n - 1); }
  }

  /** From the gain of every window to the gain of all: the delta, less what precedes the origin. */
  lemma PiecesAddUp(r: SampleRun, q: SampleRun, p: Sample, c: Sample, id: Identity, k: Gauge, n: nat)
    requires r.s.grid.Valid() && IsCounter(k) && Continues(p, c, k)
    requires p.timestamp < c.timestamp <= r.s.grid.Start(n)
    requires forall w: nat :: ValueOf(WindowOf(q, w), id, k) == ValueOf(WindowOf(r, w), id, k)
               + Piece(Delta(p, c, k), p.timestamp, c.timestamp, r.s.grid.Start(w), r.s.grid.End(w))
    ensures Total(q, id, k, n) == Total(r, id, k, n) + Delta(p, c, k) - LostIn(p, c, r.s.grid.origin, k)
  {
    TotalAdds(r, q, id, k, Delta(p, c, k), p.timestamp, c.timestamp, n);
    PiecesTelescope(r.s.grid, Delta(p, c, k), p.timestamp, c.timestamp, n);
  }

  /** A window's gain from a scan is its piece of the counter's delta. */
  lemma WindowGain(states: seq<SampleRun>, snaps: seq<Snapshot>, i: nat, p: Sample, c: Sample, id: Identity, k: Gauge,
                   w: nat)
    requires Runs(states, snaps) && i + 1 < |snaps| && LastSample(snaps[i].samples, id) == Some(p)
    requires LastSample(snaps[i + 1].samples, id) == Some(c) && p.timestamp < c.timestamp
    requires states[i + 1].s.grid.Valid() && IsCounter(k) && Continues(p, c, k)
    ensures var g := states[i + 1].s.grid;
            ValueOf(WindowOf(states[i + 2], w), id, k) == ValueOf(WindowOf(states[i + 1], w), id, k)
            + Piece(Delta(p, c, k), p.timestamp, c.timestamp, g.Start(w), g.End(w))
  {
    SeenTwice(states, snaps, i, p, c, w, id, k);
    GapGain(states[i + 1].s.grid, p, c, c.timestamp, w, k);
  }

  /** A gap in which no time passes adds nothing. */
  lemma NoTimeGain(states: seq<SampleRun>, snaps: seq<Snapshot>, i: nat, p: Sample, c: Sample, id: Identity, k: Gauge,
                   w: nat)
    requires Runs(states, snaps) && i + 1 < |snaps| && LastSample(snaps[i].samples, id) == Some(p)
    requires LastSample(snaps[i + 1].samples, id) == Some(c) && c.timestamp <= p.timestamp
    ensures ValueOf(WindowOf(states[i + 2], w), id, k) == ValueOf(WindowOf(states[i + 1], w), id, k)
  {
    SeenTwice(states, snaps, i, p, c, w, id, k);
  }

  /** Over all windows, a scan gains the delta of the gap it closes, less what precedes the origin. */
  lemma CounterScan(states: seq<SampleRun>, snaps: seq<Snapshot>, i: nat, p: Sample, c: Sample, id: Identity, k: Gauge,
                    n: nat)
    requires Runs(states, snaps) && i + 1 < |snaps| && LastSample(snaps[i].samples, id) == Some(p)
    requires LastSample(snaps[i + 1].samples, id) == Some(c) && IsCounter(k) && Continues(p, c, k)
    requires states[i + 1].s.grid.Valid() && c.timestamp <= states[i + 1].s.grid.Start(n)
    ensures Total(states[i + 2], id, k, n) ==
            Total(states[i + 1], id, k, n) + Delta(p, c, k) - LostIn(p, c, states[i + 1].s.grid.origin, k)
  {
    var r, q := states[i + 1], states[i + 2];
    if p.timestamp < c.timestamp {
      forall w: nat ensures ValueOf(WindowOf(q, w), id, k) == ValueOf(WindowOf(r, w), id, k)
          + Piece(Delta(p, c, k), p.timestamp, c.timestamp, r.s.grid.Start(w), r.s.grid.End(w)) {
        WindowGain(states, snaps, i, p, c, id, k, w);
      }
      PiecesAddUp(r, q, p, c, id, k, n);
    } else {
      forall w: nat ensures ValueOf(WindowOf(q, w), id, k) == ValueOf(WindowOf(r, w), id, k) {
        NoTimeGain(states, snaps, i, p, c, id, k, w);
      }
      TotalSame(r, q, id, k, n);
    }
  }

  // ---------------------------------------------------------------- whole stretches

  /** Between two runs, a counter's windows gained what the counter did over the samples `seen`, less what
      precedes the origin. */
  ghost predicate Conserved(before: SampleRun, after: SampleRun, seen: seq<Sample>, id: Identity, origin: int, k: Gauge,
                            n: nat)
    requires IsCounter(k) && seen != [] && Continuous(seen, k)
  {
    Total(after, id, k, n) - Total(before, id, k, n) ==
    Reading(seen[|seen| - 1], k) - Reading(seen[0], k) - Lost(seen, origin, k)
  }

  lemma OneSample(r: SampleRun, seen: seq<Sample>, id: Identity, origin: int, k: Gauge, n: nat)
    requires IsCounter(k) && |seen| == 1 && Continuous(seen, k)
    ensures Conserved(r, r, seen, id, origin, k, n)
  {
  }

  lemma GapFirst(before: SampleRun, mid: SampleRun, after: SampleRun, seen: seq<Sample>, id: Identity, origin: int,
                 k: Gauge, n: nat)
    requires IsCounter(k) && 1 < |seen| && Continuous(seen, k)
    requires Total(mid, id, k, n) ==
             Total(before, id, k, n) + Delta(seen[0], seen[1], k) - LostIn(seen[0], seen[1], origin, k)
    requires Conserved(mid, after, seen[1..], id, origin, k, n)
    ensures Conserved(before, after, seen, id, origin, k, n)
  {
  }

  /** The first gap of a stretch, on a grid whose first `n` windows the stretch does not leave. */
  lemma FirstGapScan(states: seq<SampleRun>, snaps: seq<Snapshot>, a: nat, b: nat, seen: seq<Sample>, id: Identity,
                     g: Grid, k: Gauge, n: nat)
    requires Runs(states, snaps) && 1 < |seen| && Shows(snaps, a, b, seen, id) && g == states[a + 1].s.grid
    requires IsCounter(k) && Continuous(seen, k) && seen[|seen| - 1].timestamp <= g.Start(n)
    ensures Total(states[a + 2], id, k, n) ==
            Total(states[a + 1], id, k, n) + Delta(seen[0], seen[1], k) - LostIn(seen[0], seen[1], g.origin, k)
  {
    assert seen[1].timestamp <= g.Start(n) by { SeenInOrder(snaps, a + 1, b, seen[1..], id); }
    GridStays(states, snaps, a);
    CounterScan(states, snaps, a, seen[0], seen[1], id, k, n);
  }

  lemma LongerConserved(states: seq<SampleRun>, snaps: seq<Snapshot>, a: nat, b: nat, seen: seq<Sample>, id: Identity,
                        g: Grid, k: Gauge, n: nat)
    requires Runs(states, snaps) && 1 < |seen| && Shows(snaps, a, b, seen, id) && g == states[a + 1].s.grid
    requires IsCounter(k) && Continuous(seen, k) && seen[|seen| - 1].timestamp <= g.Start(n)
    requires Conserved(states[a + 2], states[b], seen[1..], id, g.origin, k, n)
    ensures Conserved(states[a + 1], states[b], seen, id, g.origin, k, n)
  {
    FirstGapScan(states, snaps, a, b, seen, id, g, k, n);
    GapFirst(states[a + 1], states[a + 2], states[b], seen, id, g.origin, k, n);
  }

  /** For a thread that the scans from `a` on before `b` see, whatever scans surround them: over those scans a
      counter's windows gain the last reading minus the first, less what precedes the origin. */
  lemma {:induction false} CountersConserved(states: seq<SampleRun>, snaps: seq<Snapshot>, a: nat, b: nat,
                                             seen: seq<Sample>, id: Identity, g: Grid, k: Gauge, n: nat)
    requires Runs(states, snaps) && seen != [] && Shows(snaps, a, b, seen, id) && g == states[a + 1].s.grid
    requires IsCounter(k) && Continuous(seen, k) && seen[|seen| - 1].timestamp <= g.Start(n)
    ensures Conserved(states[a + 1], states[b], seen, id, g.origin, k, n)
    decreases |seen|
  {
    if |seen| == 1 {
      OneSample(states[b], seen, id, g.origin, k, n);
    } else {
      GridStays(states, snaps, a);
      CountersConserved(states, snaps, a + 1, b, seen[1..], id, g, k, n);
      LongerConserved(states, snaps, a, b, seen, id, g, k, n);
    }
  }

  // ---------------------------------------------------------------- whole lives

  /** A scan without the thread adds nothing to its counters, whether or not the one before saw it. */
  lemma NoGain(states: seq<SampleRun>, snaps: seq<Snapshot>, i: nat, id: Identity, k: Gauge, w: nat)
    requires Runs(states, snaps) && i < |snaps| && LastSample(snaps[i].samples, id) == None && IsCounter(k)
    ensures GainAt(states, i, w, id, k) == 0
  {
    if i == 0 {
      FirstAddsNothing(states, snaps, w, id, k);
    } else {
      var h := i - 1;
      match LastSample(snaps[h].samples, id) {
        case Some(p) =>
          SeenLast(states, snaps, h, p, w, id, k);
          NoCounterGain(states[i].s.grid, LossVisits(p, snaps[i].startedAt), w, k);
        case None => UnseenBefore(states, snaps, h, w, id, k);
      }
    }
  }

  lemma CountersRest(states: seq<SampleRun>, snaps: seq<Snapshot>, i: nat, id: Identity, k: Gauge, n: nat)
    requires Runs(states, snaps) && i < |snaps| && LastSample(snaps[i].samples, id) == None && IsCounter(k)
    ensures Total(states[i + 1], id, k, n) == Total(states[i], id, k, n)
  {
    var r, q := states[i], states[i + 1];
    forall w: nat ensures ValueOf(WindowOf(q, w), id, k) == ValueOf(WindowOf(r, w), id, k) {
      NoGain(states, snaps, i, id, k, w);
    }
    TotalSame(r, q, id, k, n);
  }

  lemma {:induction false} CountersStay(states: seq<SampleRun>, snaps: seq<Snapshot>, i: nat, j: nat, id: Identity,
                                        k: Gauge, n: nat)
    requires Runs(states, snaps) && i <= j <= |snaps| && Absent(snaps, i, j, id) && IsCounter(k)
    ensures Total(states[j], id, k, n) == Total(states[i], id, k, n)
    decreases j - i
  {
    if i != j {
      CountersStay(states, snaps, i + 1, j, id, k, n);
      CountersRest(states, snaps, i, id, k, n);
    }
  }

  lemma {:induction false} NothingYet(r: SampleRun, id: Identity, k: Gauge, n: nat)
    requires forall w: nat :: ValueOf(WindowOf(r, w), id, k) == 0
    ensures Total(r, id, k, n) == 0
  {
    if n != 0 { NothingYet(r, id, k, n - 1); }
  }

  lemma FirstSight(states: seq<SampleRun>, snaps: seq<Snapshot>, a: nat, id: Identity, k: Gauge, n: nat)
    requires Runs(states, snaps) && a < |snaps| && Absent(snaps, 0, a, id)
    ensures Total(states[a + 1], id, k, n) == 0
  {
    var r := states[a + 1];
    forall w: nat ensures ValueOf(WindowOf(r, w), id, k) == 0 {
      NeverSeen(states, snaps, a, id, w, k);
    }
    NothingYet(r, id, k, n);
  }

  /** A thread that those scans see and no other: after `c` scans, with those among them, its windows hold
      its last reading minus its first, less what precedes the origin. */
  lemma WholeLifeConserved(states: seq<SampleRun>, snaps: seq<Snapshot>, a: nat, b: nat, c: nat, seen: seq<Sample>,
                           id: Identity, g: Grid, k: Gauge, n: nat)
    requires Runs(states, snaps) && seen != [] && Shows(snaps, a, b, seen, id) && g == states[a + 1].s.grid
    requires b <= c <= |snaps| && Absent(snaps, 0, a, id) && Absent(snaps, b, c, id)
    requires IsCounter(k) && Continuous(seen, k) && seen[|seen| - 1].timestamp <= g.Start(n)
    ensures Total(states[c], id, k, n) == Reading(seen[|seen| - 1], k) - Reading(seen[0], k) - Lost(seen, g.origin, k)
  {
    CountersConserved(states, snaps, a, b, seen, id, g, k, n);
    assert Total(states[c], id, k, n) == Total(states[b], id, k, n) by { CountersStay(states, snaps, b, c, id, k, n); }
    assert Total(states[a + 1], id, k, n) == 0 by { FirstSight(states, snaps, a, id, k, n); }
  }

  // ---------------------------------------------------------------- what precedes the origin

  /** Sample times go up. */
  ghost predicate Advancing(seen: seq<Sample>) {
    |seen| < 2 || (seen[0].timestamp < seen[1].timestamp && Advancing(seen[1..]))
  }

  /** A gap that starts at or after the origin loses nothing to it. */
  lemma NothingLost(p: Sample, c: Sample, origin: int, k: Gauge)
    requires IsCounter(k) && Continues(p, c, k) && origin <= p.timestamp < c.timestamp
    ensures LostIn(p, c, origin, k) == 0
  {
  }

  lemma {:induction false} LaterGapsLoseNothing(seen: seq<Sample>, origin: int, k: Gauge)
    requires IsCounter(k) && seen != [] && Continuous(seen, k) && Advancing(seen) && origin <= seen[0].timestamp
    ensures Lost(seen, origin, k) == 0
  {
    if |seen| > 1 {
      NothingLost(seen[0], seen[1], origin, k);
      LaterGapsLoseNothing(seen[1..], origin, k);
    }
  }

  /** With advancing sample times that reach the origin by the second scan, as they do when the first
      scan places it, only the first gap can lose a share. */
  lemma OnlyFirstGapLoses(seen: seq<Sample>, origin: int, k: Gauge)
    requires IsCounter(k) && 1 < |seen| && Continuous(seen, k) && Advancing(seen) && origin <= seen[1].timestamp
    ensures Lost(seen, origin, k) == LostIn(seen[0], seen[1], origin, k)
  {
    LaterGapsLoseNothing(seen[1..], origin, k);
  }
}
