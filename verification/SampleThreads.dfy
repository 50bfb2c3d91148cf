/** One thread through a run of scans: which of them see it, and what its rows gain from each. */
module SampleThreads {
  import opened Wrappers
  import opened Model
  import opened Snapshots
  import opened SampleTimeline
  import opened SampleRuns
  import opened SampleGauges

  /** What a scan sees of a thread: the last of its samples. */
  function LastSample(samples: seq<Sample>, id: Identity): Option<Sample> {
    if samples == [] then None
    else
      var last := samples[|samples| - 1];
      if last.id == id then Some(last) else LastSample(samples[..|samples| - 1], id)
  }

  lemma {:induction false} LastIsKept(samples: seq<Sample>, id: Identity)
    ensures LastSample(samples, id) == if id in ByIdentity(samples) then Some(ByIdentity(samples)[id]) else None
  {
    if samples != [] { LastIsKept(samples[..|samples| - 1], id); }
  }

  /** The scans from `a` on before `b` see the thread as `seen` says, one sample a scan. */
  ghost predicate Shows(snaps: seq<Snapshot>, a: nat, b: nat, seen: seq<Sample>, id: Identity)
    decreases |seen|
  {
    && a + |seen| == b <= |snaps|
    && (seen == [] || (LastSample(snaps[a].samples, id) == Some(seen[0]) && Shows(snaps, a + 1, b, seen[1..], id)))
  }

  /** None of the scans from `a` on before `b` sees the thread. */
  ghost predicate Absent(snaps: seq<Snapshot>, a: nat, b: nat, id: Identity)
    requires b <= |snaps|
    decreases b - a
  {
    b <= a || (LastSample(snaps[a].samples, id) == None && Absent(snaps, a + 1, b, id))
  }

  /** Samples lie within their scan. */
  lemma InScan(snaps: seq<Snapshot>, i: nat, c: Sample, id: Identity)
    requires InOrder(snaps) && i < |snaps| && LastSample(snaps[i].samples, id) == Some(c)
    ensures c.id == id && c.timestamp != 0 && snaps[i].startedAt <= c.timestamp <= snaps[i].finishedAt
  {
    assert FollowsOn(snaps, i);
    LastIsKept(snaps[i].samples, id);
    assert c in snaps[i].samples;
  }

  /** Successive samples are in order. */
  lemma InTurn(snaps: seq<Snapshot>, i: nat, p: Sample, c: Sample, id: Identity)
    requires InOrder(snaps) && i + 1 < |snaps|
    requires LastSample(snaps[i].samples, id) == Some(p) && LastSample(snaps[i + 1].samples, id) == Some(c)
    ensures p.timestamp <= c.timestamp
  {
    InScan(snaps, i, p, id);
    InScan(snaps, i + 1, c, id);
    assert FollowsOn(snaps, i + 1);
  }

  lemma {:induction false} SeenInOrder(snaps: seq<Snapshot>, a: nat, b: nat, seen: seq<Sample>, id: Identity)
    requires InOrder(snaps) && Shows(snaps, a, b, seen, id) && seen != []
    ensures seen[0].timestamp <= seen[|seen| - 1].timestamp
    decreases |seen|
  {
    if |seen| > 1 {
      InTurn(snaps, a, seen[0], seen[1], id);
      SeenInOrder(snaps, a + 1, b, seen[1..], id);
    }
  }

  /** After a scan, the samples it brought wait for their successors; the first scan may place the origin. */
  lemma StepWaits(r: SampleRun, snap: Snapshot, q: SampleRun)
    requires Steps(r, snap, q)
    ensures q.s.previous == ByIdentity(snap.samples) && (r.s.initialized ==> q.s.grid == r.s.grid)
  {
  }

  lemma ScanWaits(states: seq<SampleRun>, snaps: seq<Snapshot>, i: nat, id: Identity)
    requires Runs(states, snaps) && i < |snaps|
    ensures var waiting := states[i + 1].s.previous;
            LastSample(snaps[i].samples, id) == if id in waiting then Some(waiting[id]) else None
  {
    assert StepAt(states, snaps, i);
    StepWaits(states[i], snaps[i], states[i + 1]);
    LastIsKept(snaps[i].samples, id);
  }

  /** From the first scan on, the grid stays. */
  lemma GridStays(states: seq<SampleRun>, snaps: seq<Snapshot>, i: nat)
    requires Runs(states, snaps) && i + 1 < |snaps|
    ensures states[i + 2].s.grid == states[i + 1].s.grid && states[i + 1].s.grid.Valid()
  {
    assert states[i + 1].s.initialized && states[i + 1].s.grid.Valid() by { RunSettles(states, snaps, i); }
    assert StepAt(states, snaps, i + 1);
    StepWaits(states[i + 1], snaps[i + 1], states[i + 2]);
  }

  lemma {:induction false} OneGrid(states: seq<SampleRun>, snaps: seq<Snapshot>, i: nat, j: nat)
    requires Runs(states, snaps) && i <= j < |snaps|
    ensures states[i + 1].s.grid == states[j + 1].s.grid
    decreases j - i
  {
    if i != j {
      GridStays(states, snaps, i);
      OneGrid(states, snaps, i + 1, j);
    }
  }

  // ---------------------------------------------------------------- gains

  /** What scan `i` adds to a thread's reading in window `w`. */
  function GainAt(states: seq<SampleRun>, i: nat, w: nat, id: Identity, k: Gauge): int
    requires i + 1 < |states|
  {
    ValueOf(WindowOf(states[i + 1], w), id, k) - ValueOf(WindowOf(states[i], w), id, k)
  }

  lemma GainIsGauged(states: seq<SampleRun>, snaps: seq<Snapshot>, i: nat, w: nat, id: Identity, k: Gauge)
    requires Runs(states, snaps) && i < |snaps|
    ensures GainAt(states, i, w, id, k) == ScanGain(states[i], snaps[i], w, id, k)
  {
    ScanReady(states, snaps, i);
    assert StepAt(states, snaps, i) && FollowsOn(snaps, i);
    ScanGains(states[i], snaps[i], ScannedUntil(snaps, i), w, id, k);
  }

  /** The first scan adds nothing, and later ones nothing to a thread that the scan before did not see. */
  lemma FirstAddsNothing(states: seq<SampleRun>, snaps: seq<Snapshot>, w: nat, id: Identity, k: Gauge)
    requires Runs(states, snaps) && snaps != []
    ensures GainAt(states, 0, w, id, k) == 0
  {
    GainIsGauged(states, snaps, 0, w, id, k);
  }

  lemma UnseenBefore(states: seq<SampleRun>, snaps: seq<Snapshot>, i: nat, w: nat, id: Identity, k: Gauge)
    requires Runs(states, snaps) && i + 1 < |snaps| && LastSample(snaps[i].samples, id) == None
    ensures GainAt(states, i + 1, w, id, k) == 0
  {
    GainIsGauged(states, snaps, i + 1, w, id, k);
    ScanWaits(states, snaps, i, id);
  }

  /** A thread in two successive scans gains what its gap hands out. */
  lemma SeenTwice(states: seq<SampleRun>, snaps: seq<Snapshot>, i: nat, p: Sample, c: Sample, w: nat, id: Identity,
                  k: Gauge)
    requires Runs(states, snaps) && i + 1 < |snaps|
    requires LastSample(snaps[i].samples, id) == Some(p) && LastSample(snaps[i + 1].samples, id) == Some(c)
    ensures GainAt(states, i + 1, w, id, k) == GainInAll(states[i + 1].s.grid, 0, GapVisits(p, c, c.timestamp), w, k)
  {
    GainIsGauged(states, snaps, i + 1, w, id, k);
    ScanWaits(states, snaps, i, id);
    LastIsKept(snaps[i + 1].samples, id);
    InScan(snaps, i, p, id);
    InScan(snaps, i + 1, c, id);
  }

  /** A sample without a time of its own ends its thread's gap with the scan. */
  lemma UntimedSample(s: Sampler, snap: Snapshot, c: Sample, w: nat, id: Identity, k: Gauge)
    requires s.Valid() && id in s.previous && LastSample(snap.samples, id) == Some(c) && c.timestamp == 0
    ensures ValueOf(WindowAt(Booked(s, snap).windows, w), id, k) ==
            ValueOf(WindowAt(s.windows, w), id, k)
            + GainInAll(s.grid, s.nextWindow, GapVisits(s.previous[id], c, snap.finishedAt), w, k)
  {
    BookedGains(s, snap, w, id, k);
    LastIsKept(snap.samples, id);
  }

  /** A thread that the scan misses gains what its disappearance hands out. */
  lemma SeenLast(states: seq<SampleRun>, snaps: seq<Snapshot>, i: nat, p: Sample, w: nat, id: Identity, k: Gauge)
    requires Runs(states, snaps) && i + 1 < |snaps|
    requires LastSample(snaps[i].samples, id) == Some(p) && LastSample(snaps[i + 1].samples, id) == None
    ensures GainAt(states, i + 1, w, id, k) ==
            GainInAll(states[i + 1].s.grid, 0, LossVisits(p, snaps[i + 1].startedAt), w, k)
  {
    GainIsGauged(states, snaps, i + 1, w, id, k);
    ScanWaits(states, snaps, i, id);
    LastIsKept(snaps[i + 1].samples, id);
    InScan(snaps, i, p, id);
    assert FollowsOn(snaps, i + 1);
  }

  /** While no scan sees a thread, its rows stay. */
  lemma {:induction false} UnseenStays(states: seq<SampleRun>, snaps: seq<Snapshot>, i: nat, j: nat, id: Identity,
                                       w: nat, k: Gauge)
    requires Runs(states, snaps) && i <= j < |snaps| && Absent(snaps, i, j, id)
    ensures ValueOf(WindowOf(states[j + 1], w), id, k) == ValueOf(WindowOf(states[i + 1], w), id, k)
    decreases j - i
  {
    if i != j {
      UnseenStays(states, snaps, i + 1, j, id, w, k);
      UnseenBefore(states, snaps, i, w, id, k);
    }
  }

  lemma StartsEmpty(states: seq<SampleRun>, snaps: seq<Snapshot>, w: nat, id: Identity, k: Gauge)
    requires Runs(states, snaps)
    ensures ValueOf(WindowOf(states[0], w), id, k) == 0
  {
  }

  /** The scan that first sees a thread leaves its rows at nothing. */
  lemma NeverSeen(states: seq<SampleRun>, snaps: seq<Snapshot>, i: nat, id: Identity, w: nat, k: Gauge)
    requires Runs(states, snaps) && i < |snaps| && Absent(snaps, 0, i, id)
    ensures ValueOf(WindowOf(states[i + 1], w), id, k) == 0
  {
    UnseenStays(states, snaps, 0, i, id, w, k);
    FirstAddsNothing(states, snaps, w, id, k);
    StartsEmpty(states, snaps, w, id, k);
  }
}
