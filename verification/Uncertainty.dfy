/** How far sampled state times can be from the truth. */
module Uncertainty {
  import opened Wrappers
  import opened Windows
  import opened Model
  import opened Snapshots
  import opened SampleTimeline
  import opened SampleRuns
  import opened SampleGauges
  import opened SampleThreads
  import opened Conservation

  /** The state a thread was really in, at every nanosecond. */
  type Truth = int -> ThreadState

  /** Nanoseconds of `[lo, hi)` truly spent in `s`. */
  function TrueTime(truth: Truth, lo: int, hi: int, s: ThreadState): nat
    decreases hi - lo
  {
    if hi <= lo then 0 else TrueTime(truth, lo, hi - 1, s) + if truth(hi - 1) == s then 1 else 0
  }

  lemma {:induction false} TrueSplit(truth: Truth, a: int, b: int, c: int, s: ThreadState)
    requires a <= b <= c
    ensures TrueTime(truth, a, c, s) == TrueTime(truth, a, b, s) + TrueTime(truth, b, c, s)
    decreases c - b
  {
    if b < c { TrueSplit(truth, a, b, c - 1, s); }
  }

  lemma {:induction false} TrueSteady(truth: Truth, lo: int, hi: int, x: ThreadState, s: ThreadState)
    requires forall t :: lo <= t < hi ==> truth(t) == x
    ensures TrueTime(truth, lo, hi, s) == if x == s then Max(0, hi - lo) else 0
    decreases hi - lo
  {
    if lo < hi { TrueSteady(truth, lo, hi - 1, x, s); }
  }

  /** The thread left `p`'s state for `c`'s at `at`, and only then. */
  ghost predicate ChangesAt(truth: Truth, p: Sample, c: Sample, at: int) {
    && p.timestamp <= at <= c.timestamp
    && (forall t :: p.timestamp <= t < at ==> truth(t) == p.state)
    && (forall t :: at <= t < c.timestamp ==> truth(t) == c.state)
  }

  /** A gap with equal end states hides no transition, one with different states hides exactly one. */
  ghost predicate Hides(truth: Truth, p: Sample, c: Sample) {
    if p.state == c.state then forall t :: p.timestamp <= t < c.timestamp ==> truth(t) == p.state
    else exists at :: ChangesAt(truth, p, c, at)
  }

  /** True time of the gap that falls into window `w`. */
  function TrueIn(truth: Truth, g: Grid, lo: int, hi: int, w: int, s: ThreadState): nat {
    TrueTime(truth, Max(lo, g.Start(w)), Min(hi, g.End(w)), s)
  }

  lemma SegmentTrue(truth: Truth, g: Grid, lo: int, hi: int, w: int, x: ThreadState, s: ThreadState)
    requires g.Valid() && lo <= hi && forall t :: lo <= t < hi ==> truth(t) == x
    ensures TrueIn(truth, g, lo, hi, w, s) == if x == s then g.Overlap(lo, hi, w) else 0
  {
    TrueSteady(truth, Max(lo, g.Start(w)), Min(hi, g.End(w)), x, s);
  }

  lemma TrueJoin(truth: Truth, g: Grid, a: int, b: int, c: int, w: int, s: ThreadState)
    requires g.Valid() && a <= b <= c
    ensures TrueIn(truth, g, a, c, w, s) == TrueIn(truth, g, a, b, w, s) + TrueIn(truth, g, b, c, w, s)
  {
    var lo, hi := Max(a, g.Start(w)), Min(c, g.End(w));
    if lo <= b <= hi { TrueSplit(truth, lo, b, hi, s); }
  }

  // ---------------------------------------------------------------- one gap

  /** What a gap adds to the row of window `w`. */
  function GapGains(g: Grid, p: Sample, c: Sample, end: int, w: nat, k: Gauge): int {
    GainInAll(g, 0, GapVisits(p, c, end), w, k)
  }

  /** Readings that state segments and changes of state make. */
  predicate IsState(k: Gauge) { k.SpentIn? || k.Observed? || k.Doubt? || k.Transitions? }

  lemma {:induction false} NoStateGain(g: Grid, vs: seq<Visit>, w: nat, k: Gauge)
    requires IsState(k)
    requires forall v :: v in vs ==> !v.what.Segment? && !v.what.Change?
    ensures GainInAll(g, 0, vs, w, k) == 0
  {
    if vs != [] {
      assert vs[|vs| - 1] in vs;
      NoStateGain(g, vs[..|vs| - 1], w, k);
    }
  }

  /** What a gap asks for besides its state segments. */
  function CounterPart(p: Sample, c: Sample, end: int): seq<Visit> {
    SchedVisits(p, c, end) + DelayVisits(p, c, end) + [Visit(p, p.timestamp, end, Gap(end - p.timestamp))]
  }

  lemma CounterPartPlain(p: Sample, c: Sample, end: int)
    ensures forall v :: v in CounterPart(p, c, end) ==> !v.what.Segment? && !v.what.Change?
  {
    forall v | v in SchedVisits(p, c, end) ensures v.what.Counters? || v.what.SchedReset? {}
    forall v | v in DelayVisits(p, c, end) ensures v.what.DelayShares? {}
  }

  lemma OnlyLatter(g: Grid, a: seq<Visit>, b: seq<Visit>, w: nat, k: Gauge)
    requires IsState(k) && forall v :: v in a ==> !v.what.Segment? && !v.what.Change?
    ensures GainInAll(g, 0, a + b, w, k) == GainInAll(g, 0, b, w, k)
  {
    GainsJoin(g, 0, a, b, w, k);
    NoStateGain(g, a, w, k);
  }

  lemma GapParts(p: Sample, c: Sample, end: int)
    requires p.timestamp < end
    ensures GapVisits(p, c, end) == CounterPart(p, c, end) + StateVisits(p, c, end)
  {
  }

  lemma OnlyStateVisits(g: Grid, p: Sample, c: Sample, end: int, w: nat, k: Gauge)
    requires IsState(k) && p.timestamp < end
    ensures GapGains(g, p, c, end, w, k) == GainInAll(g, 0, StateVisits(p, c, end), w, k)
  {
    GapParts(p, c, end);
    CounterPartPlain(p, c, end);
    OnlyLatter(g, CounterPart(p, c, end), StateVisits(p, c, end), w, k);
  }

  lemma SumOfThree(g: Grid, vs: seq<Visit>, w: nat, k: Gauge)
    requires |vs| == 3
    ensures GainInAll(g, 0, vs, w, k) ==
            GainIn(g, 0, vs[0], w, k) + GainIn(g, 0, vs[1], w, k) + GainIn(g, 0, vs[2], w, k)
  {
    assert vs[..2][..1][..0] == [] && vs[..2][..1][0] == vs[0] && vs[..2][1] == vs[1];
    assert GainInAll(g, 0, vs[..2][..1], w, k) == GainIn(g, 0, vs[0], w, k);
    assert GainInAll(g, 0, vs[..2], w, k) == GainIn(g, 0, vs[0], w, k) + GainIn(g, 0, vs[1], w, k);
  }

  lemma ThreeVisits(g: Grid, p: Sample, c: Sample, end: int, w: nat, k: Gauge)
    requires p.timestamp < end && p.state != c.state && IsState(k)
    ensures var vs := StateVisits(p, c, end);
            |vs| == 3 && GapGains(g, p, c, end, w, k) ==
                         GainIn(g, 0, vs[0], w, k) + GainIn(g, 0, vs[1], w, k) + GainIn(g, 0, vs[2], w, k)
  {
    OnlyStateVisits(g, p, c, end, w, k);
    SumOfThree(g, StateVisits(p, c, end), w, k);
  }

  /** A change of state splits the gap at its midpoint, and doubts the longer part of each window. */
  lemma ChangeSpends(g: Grid, p: Sample, c: Sample, end: int, w: nat, s: ThreadState)
    requires g.Valid() && p.timestamp < end && p.state != c.state
    ensures var start, mid := p.timestamp, Midpoint(p.timestamp, end);
            GapGains(g, p, c, end, w, SpentIn(s)) ==
            (if s == p.state then g.Overlap(start, mid, w) else 0)
            + (if s == c.state then g.Overlap(mid, end, w) else 0)
  {
    ThreeVisits(g, p, c, end, w, SpentIn(s));
  }

  lemma ChangeDoubts(g: Grid, p: Sample, c: Sample, end: int, w: nat)
    requires g.Valid() && p.timestamp < end && p.state != c.state
    ensures var start, mid := p.timestamp, Midpoint(p.timestamp, end);
            GapGains(g, p, c, end, w, Doubt) == Max(g.Overlap(start, mid, w), g.Overlap(mid, end, w))
  {
    ThreeVisits(g, p, c, end, w, Doubt);
  }

  lemma SteadyGains(g: Grid, p: Sample, c: Sample, end: int, w: nat, s: ThreadState)
    requires g.Valid() && p.timestamp < end && p.state == c.state
    ensures GapGains(g, p, c, end, w, SpentIn(s)) == if s == p.state then g.Overlap(p.timestamp, end, w) else 0
    ensures GapGains(g, p, c, end, w, Doubt) == 0
  {
    OnlyStateVisits(g, p, c, end, w, SpentIn(s));
    OnlyStateVisits(g, p, c, end, w, Doubt);
    var vs := StateVisits(p, c, end);
    assert vs[..0] == [];
  }

  /** In every window, a gap's error is at most what it adds to the row's uncertainty. */
  lemma GapError(g: Grid, truth: Truth, p: Sample, c: Sample, w: nat, s: ThreadState)
    requires g.Valid() && p.timestamp < c.timestamp && Hides(truth, p, c)
    ensures var spent, doubt := GapGains(g, p, c, c.timestamp, w, SpentIn(s)), GapGains(g, p, c, c.timestamp, w, Doubt);
            -doubt <= spent - TrueIn(truth, g, p.timestamp, c.timestamp, w, s) <= doubt
  {
    var start, end := p.timestamp, c.timestamp;
    if p.state == c.state {
      SteadyGains(g, p, c, end, w, s);
      SegmentTrue(truth, g, start, end, w, p.state, s);
    } else {
      var at :| ChangesAt(truth, p, c, at);
      ChangeSpends(g, p, c, end, w, s);
      ChangeDoubts(g, p, c, end, w);
      SegmentTrue(truth, g, start, at, w, p.state, s);
      SegmentTrue(truth, g, at, end, w, c.state, s);
      TrueJoin(truth, g, start, at, end, w, s);
    }
  }

  /** The bound is attained: with the change at one end of the gap, the error is the whole uncertainty. */
  lemma BoundIsTight(g: Grid, p: Sample, c: Sample, w: nat) returns (truth: Truth)
    requires g.Valid() && p.timestamp < c.timestamp && p.state != c.state
    ensures Hides(truth, p, c)
    ensures var doubt := GapGains(g, p, c, c.timestamp, w, Doubt);
            var error := GapGains(g, p, c, c.timestamp, w, SpentIn(p.state))
                         - TrueIn(truth, g, p.timestamp, c.timestamp, w, p.state);
            error == doubt || -error == doubt
  {
    var start, mid, end := p.timestamp, Midpoint(p.timestamp, c.timestamp), c.timestamp;
    var at := if g.Overlap(mid, end, w) <= g.Overlap(start, mid, w) then start else end;
    truth := t => if t < at then p.state else c.state;
    assert ChangesAt(truth, p, c, at);
    ChangeSpends(g, p, c, end, w, p.state);
    ChangeDoubts(g, p, c, end, w);
    SegmentTrue(truth, g, start, at, w, p.state, p.state);
    SegmentTrue(truth, g, at, end, w, c.state, p.state);
    TrueJoin(truth, g, start, at, end, w, p.state);
  }

  // ---------------------------------------------------------------- whole runs

  /** Between two runs, the row of window `w` gained time in `s` that is true to within the doubt it gained. */
  predicate WithinDoubt(before: SampleRun, after: SampleRun, id: Identity, truth: Truth, g: Grid, from: int, to: int,
                        w: nat, s: ThreadState) {
    var spent := ValueOf(WindowOf(after, w), id, SpentIn(s)) - ValueOf(WindowOf(before, w), id, SpentIn(s));
    var doubt := ValueOf(WindowOf(after, w), id, Doubt) - ValueOf(WindowOf(before, w), id, Doubt);
    from <= to && -doubt <= spent - TrueIn(truth, g, from, to, w, s) <= doubt
  }

  /** Every gap between successive samples hides at most the one transition its end states show. */
  ghost predicate Faithful(truth: Truth, seen: seq<Sample>) {
    |seen| < 2 || (Hides(truth, seen[0], seen[1]) && Faithful(truth, seen[1..]))
  }

  lemma NoDoubtYet(r: SampleRun, id: Identity, truth: Truth, g: Grid, at: int, w: nat, s: ThreadState)
    ensures WithinDoubt(r, r, id, truth, g, at, at, w, s)
  {
  }

  /** In one scan. */
  lemma ScanDoubt(states: seq<SampleRun>, snaps: seq<Snapshot>, i: nat, p: Sample, c: Sample, id: Identity,
                  truth: Truth, w: nat, s: ThreadState)
    requires Runs(states, snaps) && i + 1 < |snaps| && LastSample(snaps[i].samples, id) == Some(p)
    requires LastSample(snaps[i + 1].samples, id) == Some(c) && Hides(truth, p, c) && states[i + 1].s.grid.Valid()
    ensures WithinDoubt(states[i + 1], states[i + 2], id, truth, states[i + 1].s.grid, p.timestamp, c.timestamp, w, s)
  {
    InTurn(snaps, i, p, c, id);
    SeenTwice(states, snaps, i, p, c, w, id, SpentIn(s));
    SeenTwice(states, snaps, i, p, c, w, id, Doubt);
    if p.timestamp < c.timestamp { GapError(states[i + 1].s.grid, truth, p, c, w, s); }
  }

  lemma DoubtsAdd(before: SampleRun, mid: SampleRun, after: SampleRun, id: Identity, truth: Truth, g: Grid,
                  from: int, at: int, to: int, w: nat, s: ThreadState)
    requires g.Valid()
    requires WithinDoubt(before, mid, id, truth, g, from, at, w, s)
             && WithinDoubt(mid, after, id, truth, g, at, to, w, s)
    ensures WithinDoubt(before, after, id, truth, g, from, to, w, s)
  {
    TrueJoin(truth, g, from, at, to, w, s);
  }

  /** For a thread that the scans from `a` on before `b` see, whatever scans surround them: every state time
      reported for it over those scans is within the row's own uncertainty of the truth, in every window,
      emitted or pending. */
  lemma {:induction false} ErrorIsBounded(states: seq<SampleRun>, snaps: seq<Snapshot>, a: nat, b: nat,
                                          seen: seq<Sample>, id: Identity, truth: Truth, w: nat, s: ThreadState)
    requires Runs(states, snaps) && seen != [] && Shows(snaps, a, b, seen, id) && Faithful(truth, seen)
    ensures WithinDoubt(states[a + 1], states[b], id, truth, states[a + 1].s.grid, seen[0].timestamp,
                        seen[|seen| - 1].timestamp, w, s)
    decreases |seen|
  {
    var g, first, last := states[a + 1].s.grid, seen[0].timestamp, seen[|seen| - 1].timestamp;
    if |seen| == 1 {
      NoDoubtYet(states[b], id, truth, g, first, w, s);
    } else {
      GridStays(states, snaps, a);
      ScanDoubt(states, snaps, a, seen[0], seen[1], id, truth, w, s);
      ErrorIsBounded(states, snaps, a + 1, b, seen[1..], id, truth, w, s);
      DoubtsAdd(states[a + 1], states[a + 2], states[b], id, truth, g, first, seen[1].timestamp, last, w, s);
    }
  }
}
