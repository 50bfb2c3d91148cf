/** What the initial scan becomes: one track, and one lifetime, for each thread number of the scan. */
module EventSeeds {
  import opened Model
  import opened Snapshots
  import opened EventTimeline

  /** The last sample of its thread number. */
  ghost predicate IsLast(samples: seq<Sample>, i: nat) {
    i < |samples| && forall j :: i < j < |samples| ==> samples[j].id.tid != samples[i].id.tid
  }

  /** Off-CPU states are taken over; whether a runnable thread is on a CPU is not known. */
  predicate StartsAs(s: ThreadState, t: SchedState) {
    && (t == SchedState.Sleeping <==> s == ThreadState.Sleeping)
    && (t == SchedState.Uninterruptible <==> s == ThreadState.Uninterruptible)
    && (t == SchedState.Stopped <==> s == ThreadState.Stopped)
    && (t == SchedState.TracingStop <==> s == ThreadState.TracingStop)
    && (t == SchedState.Idle <==> s == ThreadState.Idle)
    && (t == SchedState.Dead <==> s == Zombie || s == ThreadState.Dead)
    && (t == SchedState.Unknown <==> s == Running || s == ThreadState.Unknown)
  }

  /** Alive since the origin, known from the sample's time on, with no wakeup pending. */
  predicate SeededBy(t: Track, s: Sample, origin: int) {
    && t.pid == s.pid && t.id == s.id && t.comm == s.comm && StartsAs(s.state, t.state)
    && t.alive && t.since == origin && t.wakeupAt == 0
    && t.seedAt == t.lastEvent == if s.timestamp == 0 then origin else s.timestamp
  }

  /** The tracks are those of the scan's thread numbers, each as its last sample says. */
  ghost predicate SeedsOf(tracks: map<int, Track>, samples: seq<Sample>, origin: int) {
    && (forall i :: 0 <= i < |samples| ==> samples[i].id.tid in tracks)
    && (forall i: nat | IsLast(samples, i) ::
          samples[i].id.tid in tracks && SeededBy(tracks[samples[i].id.tid], samples[i], origin))
    && (forall tid :: tid in tracks ==> exists i: nat :: IsLast(samples, i) && samples[i].id.tid == tid)
  }

  lemma SeedFields(origin: int, s: Sample)
    ensures SeededBy(SeedTrack(origin, s), s, origin)
  {
  }

  lemma {:induction false} LastSeeds(origin: int, samples: seq<Sample>, i: nat)
    requires IsLast(samples, i)
    ensures var tracks := SeedTracks(origin, samples);
            samples[i].id.tid in tracks && SeededBy(tracks[samples[i].id.tid], samples[i], origin)
  {
    var n := |samples| - 1;
    if i < n {
      assert samples[n].id.tid != samples[i].id.tid;
      LastSeeds(origin, samples[..n], i);
    } else {
      SeedFields(origin, samples[n]);
    }
  }

  lemma {:induction false} EachSeeds(origin: int, samples: seq<Sample>, i: nat)
    requires i < |samples|
    ensures samples[i].id.tid in SeedTracks(origin, samples)
  {
    var n := |samples| - 1;
    if i < n { EachSeeds(origin, samples[..n], i); }
  }

  lemma {:induction false} LastOf(samples: seq<Sample>, tid: int) returns (i: nat)
    requires exists s :: s in samples && s.id.tid == tid
    ensures IsLast(samples, i) && samples[i].id.tid == tid
  {
    i := |samples| - 1;
    if samples[i].id.tid != tid {
      assert exists s :: s in samples[..|samples| - 1] && s.id.tid == tid by {
        var s :| s in samples && s.id.tid == tid;
        assert s in samples[..|samples| - 1];
      }
      i := LastOf(samples[..|samples| - 1], tid);
    }
  }

  lemma ScanSeeds(origin: int, samples: seq<Sample>)
    ensures SeedsOf(SeedTracks(origin, samples), samples, origin)
  {
    var tracks := SeedTracks(origin, samples);
    forall i: nat | IsLast(samples, i)
      ensures samples[i].id.tid in tracks && SeededBy(tracks[samples[i].id.tid], samples[i], origin)
    {
      LastSeeds(origin, samples, i);
    }
    forall i: nat | i < |samples| ensures samples[i].id.tid in tracks { EachSeeds(origin, samples, i); }
    forall tid | tid in tracks ensures exists i: nat :: IsLast(samples, i) && samples[i].id.tid == tid {
      var s :| s in samples && tracks[tid] == SeedTrack(origin, s);
      var i := LastOf(samples, tid);
    }
  }
}
