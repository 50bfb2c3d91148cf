/** Counters that start again, and what their rows keep count of. */
module Restarts {
  import opened Wrappers
  import opened Windows
  import opened Model
  import opened Snapshots
  import opened SampleTimeline
  import opened SampleRuns
  import opened SampleGauges
  import opened SampleThreads
  import opened Conservation
  import opened Uncertainty

  predicate OfSchedstat(k: Gauge) {
    k.OnCPUTime? || k.QueueTime? || k.Slices? || k.StatResets? || k.StatPairs? || k.StatTime? || k.SchedTime?
  }

  predicate OfDelays(k: Gauge) {
    k.DelayCount? || k.DelayTotal? || k.DelayResets? || k.DelayPairs? || k.DelayTime?
  }

  /** Both scans read the resource, and its count or its total went down. */
  predicate Restarted(p: Delays, c: Delays, r: Resource) {
    var a, b := p.counters.At(r), c.counters.At(r);
    p.available && c.available && a.available && b.available && (b.count < a.count || b.total < a.total)
  }

  function One(b: bool): nat { if b then 1 else 0 }

  /** How many of the eight resources restarted. */
  function HowMany(p: Delays, c: Delays): nat {
    One(Restarted(p, c, CPU)) + One(Restarted(p, c, BlockIO)) + One(Restarted(p, c, SwapIn))
    + One(Restarted(p, c, Reclaim)) + One(Restarted(p, c, Thrashing)) + One(Restarted(p, c, Compaction))
    + One(Restarted(p, c, WriteProtectCopy)) + One(Restarted(p, c, IRQ))
  }

  /** Some resource went on. */
  predicate GoesOn(p: Delays, c: Delays) {
    || SameCounter(p, c, CPU) || SameCounter(p, c, BlockIO) || SameCounter(p, c, SwapIn) || SameCounter(p, c, Reclaim)
    || SameCounter(p, c, Thrashing) || SameCounter(p, c, Compaction) || SameCounter(p, c, WriteProtectCopy)
    || SameCounter(p, c, IRQ)
  }

  // ---------------------------------------------------------------- which visits matter

  /** A schedstat reading grows through the schedstat visit alone, a delay reading through the taskstats one. */
  lemma {:induction false} OnlyOwn(g: Grid, vs: seq<Visit>, w: nat, k: Gauge)
    requires OfSchedstat(k) ==> forall v :: v in vs ==> !v.what.Counters? && !v.what.SchedReset?
    requires OfDelays(k) ==> forall v :: v in vs ==> !v.what.DelayShares?
    requires OfSchedstat(k) || OfDelays(k)
    ensures GainInAll(g, 0, vs, w, k) == 0
  {
    if vs != [] {
      assert vs[|vs| - 1] in vs;
      OnlyOwn(g, vs[..|vs| - 1], w, k);
    }
  }

  lemma TimePartNoReset(p: Sample, c: Sample, end: int)
    ensures forall v :: v in TimePart(p, c, end) ==> !v.what.SchedReset?
  {
  }

  lemma GapAdds(g: Grid, p: Sample, c: Sample, end: int, w: nat, k: Gauge)
    requires p.timestamp < end
    ensures GapGains(g, p, c, end, w, k) ==
            GainInAll(g, 0, SchedVisits(p, c, end), w, k) + GainInAll(g, 0, DelayVisits(p, c, end), w, k)
            + GainInAll(g, 0, TimePart(p, c, end), w, k)
  {
    GapInOrder(p, c, end);
    GainsJoin(g, 0, SchedVisits(p, c, end) + DelayVisits(p, c, end), TimePart(p, c, end), w, k);
    GainsJoin(g, 0, SchedVisits(p, c, end), DelayVisits(p, c, end), w, k);
  }

  lemma TimePartSilent(g: Grid, p: Sample, c: Sample, end: int, w: nat, k: Gauge)
    requires OfSchedstat(k) || OfDelays(k)
    ensures GainInAll(g, 0, TimePart(p, c, end), w, k) == 0
  {
    TimePartPlain(p, c, end);
    TimePartNoReset(p, c, end);
    OnlyOwn(g, TimePart(p, c, end), w, k);
  }

  lemma OthersSilent(g: Grid, p: Sample, c: Sample, end: int, w: nat, k: Gauge)
    ensures OfSchedstat(k) ==> GainInAll(g, 0, DelayVisits(p, c, end), w, k) == 0
    ensures OfDelays(k) ==> GainInAll(g, 0, SchedVisits(p, c, end), w, k) == 0
  {
    if OfSchedstat(k) { OnlyOwn(g, DelayVisits(p, c, end), w, k); }
    if OfDelays(k) { OnlyOwn(g, SchedVisits(p, c, end), w, k); }
  }

  lemma OwnPart(g: Grid, p: Sample, c: Sample, end: int, w: nat, k: Gauge)
    requires p.timestamp < end && (OfSchedstat(k) || OfDelays(k))
    ensures OfSchedstat(k) ==> GapGains(g, p, c, end, w, k) == GainInAll(g, 0, SchedVisits(p, c, end), w, k)
    ensures OfDelays(k) ==> GapGains(g, p, c, end, w, k) == GainInAll(g, 0, DelayVisits(p, c, end), w, k)
  {
    GapAdds(g, p, c, end, w, k);
    TimePartSilent(g, p, c, end, w, k);
    OthersSilent(g, p, c, end, w, k);
  }

  lemma OneVisit(g: Grid, v: Visit, w: nat, k: Gauge)
    ensures GainInAll(g, 0, [v], w, k) == GainIn(g, 0, v, w, k) && GainInAll(g, 0, [], w, k) == 0
  {
    assert [v][..0] == [];
  }

  // ---------------------------------------------------------------- schedstat

  /** Three readings that each went on are shared out, and counted as a pair over the time of the overlap; when
      one of them went down, none is, and a reset is counted; without both readings nothing is. */
  lemma SchedstatTallies(g: Grid, p: Sample, c: Sample, end: int, w: nat)
    requires g.Valid() && p.timestamp < end && 0 < g.Overlap(p.timestamp, end, w)
    ensures var both, same := p.schedstat.available && c.schedstat.available, SameSchedstat(p.schedstat, c.schedstat);
      && GapGains(g, p, c, end, w, StatResets) == One(both && !same)
      && GapGains(g, p, c, end, w, StatPairs) == One(same)
      && GapGains(g, p, c, end, w, StatTime) == GapGains(g, p, c, end, w, SchedTime) ==
         (if same then g.Overlap(p.timestamp, end, w) else 0)
      && (!same ==> GapGains(g, p, c, end, w, OnCPUTime) == GapGains(g, p, c, end, w, QueueTime) ==
                    GapGains(g, p, c, end, w, Slices) == 0)
  {
    SchedstatTally(g, p, c, end, w, StatResets);
    SchedstatTally(g, p, c, end, w, StatPairs);
    SchedstatTally(g, p, c, end, w, StatTime);
    SchedstatTally(g, p, c, end, w, SchedTime);
    SchedstatTally(g, p, c, end, w, OnCPUTime);
    SchedstatTally(g, p, c, end, w, QueueTime);
    SchedstatTally(g, p, c, end, w, Slices);
  }

  lemma SchedstatTally(g: Grid, p: Sample, c: Sample, end: int, w: nat, k: Gauge)
    requires g.Valid() && p.timestamp < end && 0 < g.Overlap(p.timestamp, end, w) && OfSchedstat(k)
    ensures var both, same := p.schedstat.available && c.schedstat.available, SameSchedstat(p.schedstat, c.schedstat);
      && (k.StatResets? ==> GapGains(g, p, c, end, w, k) == One(both && !same))
      && (k.StatPairs? ==> GapGains(g, p, c, end, w, k) == One(same))
      && (k.StatTime? || k.SchedTime? ==>
            GapGains(g, p, c, end, w, k) == if same then g.Overlap(p.timestamp, end, w) else 0)
      && (IsCounter(k) && !same ==> GapGains(g, p, c, end, w, k) == 0)
  {
    OwnPart(g, p, c, end, w, k);
    var vs := SchedVisits(p, c, end);
    if vs != [] { OneVisit(g, vs[0], w, k); }
  }

  // ---------------------------------------------------------------- taskstats

  lemma DeltaAt(p: Delays, c: Delays, r: Resource)
    requires p.available && c.available
    ensures DelayDeltaOf(p, c).deltas.At(r) == DeltaOf(p.counters.At(r), c.counters.At(r))
    ensures DelayDeltaOf(p, c).deltas.At(r).available <==> SameCounter(p, c, r)
  {
  }

  lemma ResetsCounted(p: Delays, c: Delays)
    requires p.available && c.available
    ensures DelayDeltaOf(p, c).resets == HowMany(p, c)
  {
  }

  lemma ComparableMeans(p: Delays, c: Delays)
    requires p.available && c.available
    ensures DelayDeltaOf(p, c).Comparable() <==> GoesOn(p, c)
  {
    DeltaAt(p, c, CPU);
    DeltaAt(p, c, BlockIO);
    DeltaAt(p, c, SwapIn);
    DeltaAt(p, c, Reclaim);
    DeltaAt(p, c, Thrashing);
    DeltaAt(p, c, Compaction);
    DeltaAt(p, c, WriteProtectCopy);
    DeltaAt(p, c, IRQ);
  }

  /** Each resource on its own: those that restarted are counted as resets and share out nothing; while any
      resource goes on, the gap counts as a pair over the time of the overlap. */
  lemma DelayTallies(g: Grid, p: Sample, c: Sample, end: int, w: nat, r: Resource)
    requires g.Valid() && p.timestamp < end && 0 < g.Overlap(p.timestamp, end, w)
    ensures GapGains(g, p, c, end, w, DelayResets) == HowMany(p.delays, c.delays)
    ensures GapGains(g, p, c, end, w, DelayPairs) == One(GoesOn(p.delays, c.delays))
    ensures GapGains(g, p, c, end, w, DelayTime) ==
            if GoesOn(p.delays, c.delays) then g.Overlap(p.timestamp, end, w) else 0
    ensures !SameCounter(p.delays, c.delays, r) ==>
              GapGains(g, p, c, end, w, DelayCount(r)) == GapGains(g, p, c, end, w, DelayTotal(r)) == 0
  {
    DelayTally(g, p, c, end, w, DelayResets);
    DelayTally(g, p, c, end, w, DelayPairs);
    DelayTally(g, p, c, end, w, DelayTime);
    DelayTally(g, p, c, end, w, DelayCount(r));
    DelayTally(g, p, c, end, w, DelayTotal(r));
  }

  /** What a taskstats visit says of itself. */
  function Told(d: DelayDelta, time: int, k: Gauge): int
    requires OfDelays(k) && !IsCounter(k)
  {
    if k.DelayResets? then d.resets else if !d.Comparable() then 0 else if k.DelayPairs? then 1 else time
  }

  lemma DelayVisitTells(g: Grid, p: Sample, c: Sample, end: int, w: nat, k: Gauge)
    requires g.Valid() && 0 < g.Overlap(p.timestamp, end, w) && OfDelays(k)
    requires p.delays.available && c.delays.available
    ensures var d, gain := DelayDeltaOf(p.delays, c.delays), GainInAll(g, 0, DelayVisits(p, c, end), w, k);
            if IsCounter(k) then !d.deltas.At(k.r).available ==> gain == 0
            else gain == Told(d, g.Overlap(p.timestamp, end, w), k)
  {
    var d := DelayDeltaOf(p.delays, c.delays);
    OneVisit(g, Visit(c, p.timestamp, end, DelayShares(d, p.timestamp, end)), w, k);
  }

  lemma DelayTally(g: Grid, p: Sample, c: Sample, end: int, w: nat, k: Gauge)
    requires g.Valid() && p.timestamp < end && 0 < g.Overlap(p.timestamp, end, w) && OfDelays(k)
    ensures k.DelayResets? ==> GapGains(g, p, c, end, w, k) == HowMany(p.delays, c.delays)
    ensures k.DelayPairs? ==> GapGains(g, p, c, end, w, k) == One(GoesOn(p.delays, c.delays))
    ensures k.DelayTime? ==>
              GapGains(g, p, c, end, w, k) == if GoesOn(p.delays, c.delays) then g.Overlap(p.timestamp, end, w) else 0
    ensures IsCounter(k) && !SameCounter(p.delays, c.delays, k.r) ==> GapGains(g, p, c, end, w, k) == 0
  {
    OwnPart(g, p, c, end, w, k);
    if p.delays.available && c.delays.available {
      DelayVisitTells(g, p, c, end, w, k);
      ComparableMeans(p.delays, c.delays);
      ResetsCounted(p.delays, c.delays);
      if IsCounter(k) { DeltaAt(p.delays, c.delays, k.r); }
    }
  }

  // ---------------------------------------------------------------- changes of state

  lemma TransitionsCounted(g: Grid, p: Sample, c: Sample, end: int, w: nat)
    requires g.Valid() && p.timestamp < end && 0 < g.Overlap(p.timestamp, end, w)
    ensures GapGains(g, p, c, end, w, Transitions) == One(p.state != c.state)
  {
    if p.state == c.state {
      OnlyStateVisits(g, p, c, end, w, Transitions);
      OneVisit(g, StateVisits(p, c, end)[0], w, Transitions);
    } else {
      ThreeVisits(g, p, c, end, w, Transitions);
    }
  }

  /** What scan `i + 1` adds to the tallies of a thread that it and the scan before saw. */
  lemma RestartsReported(states: seq<SampleRun>, snaps: seq<Snapshot>, i: nat, p: Sample, c: Sample, id: Identity,
                         w: nat)
    requires Runs(states, snaps) && i + 1 < |snaps| && LastSample(snaps[i].samples, id) == Some(p)
    requires LastSample(snaps[i + 1].samples, id) == Some(c) && p.timestamp < c.timestamp
    requires states[i + 1].s.grid.Valid() && 0 < states[i + 1].s.grid.Overlap(p.timestamp, c.timestamp, w)
    ensures var same := SameSchedstat(p.schedstat, c.schedstat);
      && GainAt(states, i + 1, w, id, StatPairs) == One(same)
      && GainAt(states, i + 1, w, id, StatResets) == One(p.schedstat.available && c.schedstat.available && !same)
      && GainAt(states, i + 1, w, id, DelayPairs) == One(GoesOn(p.delays, c.delays))
      && GainAt(states, i + 1, w, id, DelayResets) == HowMany(p.delays, c.delays)
      && GainAt(states, i + 1, w, id, Transitions) == One(p.state != c.state)
  {
    var g := states[i + 1].s.grid;
    forall k ensures GainAt(states, i + 1, w, id, k) == GapGains(g, p, c, c.timestamp, w, k) {
      SeenTwice(states, snaps, i, p, c, w, id, k);
    }
    SchedstatTallies(g, p, c, c.timestamp, w);
    DelayTallies(g, p, c, c.timestamp, w, CPU);
    TransitionsCounted(g, p, c, c.timestamp, w);
  }
}
