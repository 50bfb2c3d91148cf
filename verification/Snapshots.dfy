/** Thread samples and their scan bracket (internal/model/sample.go). */
module Snapshots {
  import opened Model
  import opened Windows
  import opened Machine

  datatype Schedstat = Schedstat(available: bool, onCPU: uint64, runqueue: uint64, timeslices: uint64)

  datatype DelayCounter = DelayCounter(available: bool, count: uint64, total: uint64)

  datatype Delays = Delays(available: bool, version: nat, enabled: bool, enabledKnown: bool,
                           counters: PerResource<DelayCounter>)

  datatype Sample = Sample(pid: int, id: Identity, comm: string, state: ThreadState, timestamp: int,
                           schedstat: Schedstat, delays: Delays)

  datatype Snapshot = Snapshot(samples: seq<Sample>, startedAt: int, finishedAt: int, samplingMethod: string)

  /** Earliest non-zero sample time, or zero. */
  function FirstTime(samples: seq<Sample>): int {
    if samples == [] then 0
    else
      var first, t := FirstTime(samples[..|samples| - 1]), samples[|samples| - 1].timestamp;
      if t != 0 && (first == 0 || t < first) then t else first
  }

  /** Latest sample time after the zero time, or zero. */
  function LastTime(samples: seq<Sample>): int {
    if samples == [] then 0
    else Max(LastTime(samples[..|samples| - 1]), samples[|samples| - 1].timestamp)
  }

  /** Fills in a missing scan bracket; `now` is the wall clock. */
  function Normalize(s: Snapshot, now: int): (r: Snapshot)
    requires now != 0
    ensures r.samples == s.samples && r.samplingMethod == s.samplingMethod
    ensures r.startedAt != 0 && r.finishedAt != 0 && r.startedAt <= r.finishedAt
    ensures s.startedAt != 0 && s.finishedAt != 0 && s.startedAt <= s.finishedAt ==> r == s
  {
    var started := if s.startedAt == 0 then FirstTime(s.samples) else s.startedAt;
    var last := if s.finishedAt == 0 then LastTime(s.samples) else s.finishedAt;
    var finished := if last == 0 then now else last;
    s.(startedAt := if started == 0 || finished < started then finished else started, finishedAt := finished)
  }

  /** Some sample carries `t`, and none an earlier time except the zero time. */
  predicate IsFirst(samples: seq<Sample>, t: int) {
    && t != 0 && (exists s :: s in samples && s.timestamp == t)
    && forall s :: s in samples && s.timestamp != 0 ==> t <= s.timestamp
  }

  /** Some sample carries `t`, after the zero time, and none a later time. */
  predicate IsLatest(samples: seq<Sample>, t: int) {
    0 < t && (exists s :: s in samples && s.timestamp == t) && forall s :: s in samples ==> s.timestamp <= t
  }

  lemma {:induction false} FirstTimeIsFirst(samples: seq<Sample>)
    ensures if forall s :: s in samples ==> s.timestamp == 0 then FirstTime(samples) == 0
            else IsFirst(samples, FirstTime(samples))
  {
    if samples != [] {
      var rest, last := samples[..|samples| - 1], samples[|samples| - 1];
      assert samples == rest + [last];
      FirstTimeIsFirst(rest);
    }
  }

  lemma {:induction false} LastTimeIsLatest(samples: seq<Sample>)
    ensures if forall s :: s in samples ==> s.timestamp <= 0 then LastTime(samples) == 0
            else IsLatest(samples, LastTime(samples))
  {
    if samples != [] {
      var rest, last := samples[..|samples| - 1], samples[|samples| - 1];
      assert samples == rest + [last];
      LastTimeIsLatest(rest);
    }
  }

  /** A missing end is the latest sample time, or the clock's; a missing start is the earliest sample time, or
      the end; and no start is left after the end. */
  lemma NormalizeFillsIn(s: Snapshot, now: int)
    requires now != 0
    ensures var end := Normalize(s, now).finishedAt;
            if s.finishedAt != 0 then end == s.finishedAt
            else if forall x :: x in s.samples ==> x.timestamp <= 0 then end == now else IsLatest(s.samples, end)
    ensures var start, end := Normalize(s, now).startedAt, Normalize(s, now).finishedAt;
            if s.startedAt != 0 then start == Min(s.startedAt, end)
            else if forall x :: x in s.samples ==> x.timestamp == 0 then start == end
            else exists t :: IsFirst(s.samples, t) && start == Min(t, end)
  {
    FirstTimeIsFirst(s.samples);
    LastTimeIsLatest(s.samples);
    if exists x :: x in s.samples && x.timestamp != 0 { assert IsFirst(s.samples, FirstTime(s.samples)); }
  }
}
