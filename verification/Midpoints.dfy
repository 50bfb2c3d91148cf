/** Why a change of state is put in the middle of the gap that hides it. */
module Midpoints {
  import opened Wrappers
  import opened Windows
  import opened Model
  import opened Snapshots
  import opened SampleTimeline
  import opened SampleRuns
  import opened SampleGauges
  import opened SampleThreads
  import opened Conservation
  import opened Uncertainty

  /** The window holds the whole gap. */
  predicate Holds(g: Grid, w: nat, start: int, end: int) { g.Start(w) <= start <= end <= g.End(w) }

  function Abs(x: int): nat { if x < 0 then -x else x }

  // ---------------------------------------------------------------- a gap that hides a change

  /** In a window that holds the whole gap, the old state gets the first half, rounded down, the new state the
      rest, and the rest is the doubt: at most half the gap, rounded up. */
  lemma ChangeHalves(g: Grid, p: Sample, c: Sample, end: int, w: nat)
    requires g.Valid() && p.timestamp < end && p.state != c.state && Holds(g, w, p.timestamp, end)
    ensures var gap := end - p.timestamp;
      && GapGains(g, p, c, end, w, SpentIn(p.state)) == gap / 2
      && GapGains(g, p, c, end, w, SpentIn(c.state)) == gap - gap / 2
      && GapGains(g, p, c, end, w, Doubt) == gap - gap / 2 <= (gap + 1) / 2
  {
    ChangeSpends(g, p, c, end, w, p.state);
    ChangeSpends(g, p, c, end, w, c.state);
    ChangeDoubts(g, p, c, end, w);
  }

  /** A truth that changes at the end of the gap which lies farther from `split`. */
  lemma FarChange(p: Sample, c: Sample, split: int) returns (truth: Truth, at: int)
    requires p.timestamp <= split <= c.timestamp
    ensures ChangesAt(truth, p, c, at) && (at == p.timestamp || at == c.timestamp)
    ensures 2 * Abs(split - at) >= c.timestamp - p.timestamp
  {
    at := if c.timestamp - split <= split - p.timestamp then p.timestamp else c.timestamp;
    truth := t => if t < at then p.state else c.state;
  }

  lemma TrueUntil(truth: Truth, g: Grid, p: Sample, c: Sample, at: int, w: nat)
    requires g.Valid() && p.state != c.state && ChangesAt(truth, p, c, at) && Holds(g, w, p.timestamp, c.timestamp)
    ensures TrueIn(truth, g, p.timestamp, c.timestamp, w, p.state) == at - p.timestamp
  {
    SegmentTrue(truth, g, p.timestamp, at, w, p.state, p.state);
    SegmentTrue(truth, g, at, c.timestamp, w, c.state, p.state);
    TrueJoin(truth, g, p.timestamp, at, c.timestamp, w, p.state);
  }

  /** Whatever instant of the gap the change is put at, some truth leaves an error of at least the doubt that
      the midpoint is booked with, which by `GapError` bounds the midpoint's own error for every truth. */
  lemma MidpointIsBest(g: Grid, p: Sample, c: Sample, w: nat, split: int) returns (truth: Truth)
    requires g.Valid() && p.timestamp < c.timestamp && p.state != c.state
    requires Holds(g, w, p.timestamp, c.timestamp) && p.timestamp <= split <= c.timestamp
    ensures Hides(truth, p, c)
    ensures GapGains(g, p, c, c.timestamp, w, Doubt) <=
            Abs((split - p.timestamp) - TrueIn(truth, g, p.timestamp, c.timestamp, w, p.state))
  {
    var at;
    truth, at := FarChange(p, c, split);
    TrueUntil(truth, g, p, c, at, w);
    ChangeHalves(g, p, c, c.timestamp, w);
  }

  // ---------------------------------------------------------------- a thread that vanishes

  function LossGains(g: Grid, p: Sample, end: int, w: nat, k: Gauge): int { GainInAll(g, 0, LossVisits(p, end), w, k) }

  lemma LossParts(g: Grid, p: Sample, end: int, w: nat, k: Gauge)
    requires g.Valid() && p.timestamp < end && IsState(k)
    ensures var start, mid := p.timestamp, Midpoint(p.timestamp, end);
            LossGains(g, p, end, w, k) ==
            GainIn(g, 0, Visit(p, start, mid, Segment(p.state)), w, k)
            + GainIn(g, 0, Visit(p, mid, end, Segment(Unknown)), w, k)
            + GainIn(g, 0, Visit(p, start, end, Change(start, mid, end)), w, k)
  {
    var vs := LossVisits(p, end);
    assert vs == [vs[0]] + vs[1..];
    GainsJoin(g, 0, [vs[0]], vs[1..], w, k);
    assert [vs[0]][..0] == [];
    SumOfThree(g, vs[1..], w, k);
  }

  lemma SegmentGain(g: Grid, p: Sample, lo: int, hi: int, x: ThreadState, w: nat, s: ThreadState)
    ensures GainIn(g, 0, Visit(p, lo, hi, Segment(x)), w, SpentIn(s)) == if s == x then g.Overlap(lo, hi, w) else 0
  {
  }

  /** In every window: the state last seen up to the middle of the gap, unknown from there on. */
  lemma LossSpends(g: Grid, p: Sample, end: int, w: nat, s: ThreadState)
    requires g.Valid() && p.timestamp < end
    ensures var mid := p.timestamp + (end - p.timestamp) / 2;
            LossGains(g, p, end, w, SpentIn(s)) ==
            (if s == p.state then g.Overlap(p.timestamp, mid, w) else 0)
            + (if s == Unknown then g.Overlap(mid, end, w) else 0)
  {
    var mid := Midpoint(p.timestamp, end);
    LossParts(g, p, end, w, SpentIn(s));
    SegmentGain(g, p, p.timestamp, mid, p.state, w, s);
    SegmentGain(g, p, mid, end, Unknown, w, s);
  }

  lemma LossDoubts(g: Grid, p: Sample, end: int, w: nat)
    requires g.Valid() && p.timestamp < end
    ensures var mid := p.timestamp + (end - p.timestamp) / 2;
            LossGains(g, p, end, w, Doubt) == Max(g.Overlap(p.timestamp, mid, w), g.Overlap(mid, end, w))
    ensures 0 < g.Overlap(p.timestamp, end, w) ==> LossGains(g, p, end, w, Transitions) == 1
  {
    LossParts(g, p, end, w, Doubt);
    LossParts(g, p, end, w, Transitions);
  }

  /** In a window that holds the whole gap, the two halves, and their doubt. */
  lemma LossHalves(g: Grid, p: Sample, end: int, w: nat)
    requires g.Valid() && p.timestamp < end && Holds(g, w, p.timestamp, end)
    ensures var gap := end - p.timestamp;
      && (p.state != Unknown ==> LossGains(g, p, end, w, SpentIn(p.state)) == gap / 2)
      && LossGains(g, p, end, w, SpentIn(Unknown)) == (if p.state == Unknown then gap else gap - gap / 2)
      && LossGains(g, p, end, w, Doubt) == gap - gap / 2 <= (gap + 1) / 2
  {
    LossSpends(g, p, end, w, p.state);
    LossSpends(g, p, end, w, Unknown);
    LossDoubts(g, p, end, w);
  }

  // ---------------------------------------------------------------- runs

  /** What a thread's row gains from a scan that saw it in another state than the scan before. */
  lemma ChangeReported(states: seq<SampleRun>, snaps: seq<Snapshot>, i: nat, p: Sample, c: Sample, id: Identity,
                       w: nat)
    requires Runs(states, snaps) && i + 1 < |snaps| && LastSample(snaps[i].samples, id) == Some(p)
    requires LastSample(snaps[i + 1].samples, id) == Some(c) && p.timestamp < c.timestamp && p.state != c.state
    requires states[i + 1].s.grid.Valid() && Holds(states[i + 1].s.grid, w, p.timestamp, c.timestamp)
    ensures var gap := c.timestamp - p.timestamp;
      && GainAt(states, i + 1, w, id, SpentIn(p.state)) == gap / 2
      && GainAt(states, i + 1, w, id, SpentIn(c.state)) == gap - gap / 2
      && GainAt(states, i + 1, w, id, Doubt) == gap - gap / 2
  {
    SeenTwice(states, snaps, i, p, c, w, id, SpentIn(p.state));
    SeenTwice(states, snaps, i, p, c, w, id, SpentIn(c.state));
    SeenTwice(states, snaps, i, p, c, w, id, Doubt);
    ChangeHalves(states[i + 1].s.grid, p, c, c.timestamp, w);
  }

  /** ... and from a scan that misses it: charged up to the scan's start, half of it to the unknown state. */
  lemma LossReported(states: seq<SampleRun>, snaps: seq<Snapshot>, i: nat, p: Sample, id: Identity, w: nat)
    requires Runs(states, snaps) && i + 1 < |snaps| && LastSample(snaps[i].samples, id) == Some(p)
    requires LastSample(snaps[i + 1].samples, id) == None && p.timestamp < snaps[i + 1].startedAt
    requires p.state != Unknown && states[i + 1].s.grid.Valid()
    requires Holds(states[i + 1].s.grid, w, p.timestamp, snaps[i + 1].startedAt)
    ensures var gap := snaps[i + 1].startedAt - p.timestamp;
      && GainAt(states, i + 1, w, id, SpentIn(p.state)) == gap / 2
      && GainAt(states, i + 1, w, id, SpentIn(Unknown)) == gap - gap / 2
      && GainAt(states, i + 1, w, id, Doubt) == gap - gap / 2
  {
    SeenLast(states, snaps, i, p, w, id, SpentIn(p.state));
    SeenLast(states, snaps, i, p, w, id, SpentIn(Unknown));
    SeenLast(states, snaps, i, p, w, id, Doubt);
    LossHalves(states[i + 1].s.grid, p, snaps[i + 1].startedAt, w);
  }
}
