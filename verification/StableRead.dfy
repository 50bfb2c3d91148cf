/** Reading a thread's state and counters as one sample, between two looks at its identity
    (`readStableTask`, internal/backend/proc/proc.go, and `readStableThreadSample`,
    internal/backend/taskstats/taskstats.go). */
module StableRead {
  import opened Wrappers

  const ATTEMPTS: nat := 2

  /** A thread at a procfs path, told apart by its number and start ticks. */
  datatype Thread = Thread(tid: int, ticks: nat)

  /** A file read or a counter query: nothing there, an error, or a value. */
  datatype Read<T> = Missing | Broken | Got(value: T)

  /** One turn of the loop: clock readings, and the three reads with the instants they took effect. */
  datatype Attempt = Attempt(startedAt: int, before: Read<Thread>, beforeAt: int, counters: Read<nat>, countersAt: int,
                             after: Read<Thread>, afterAt: int, finishedAt: int) {

    predicate SameThread() { before.Got? && after.Got? && before.value == after.value }
  }

  /** `counters` is `None` when the counter file was missing or not readable. */
  datatype Sample = Sample(thread: Thread, timestamp: int, counters: Option<nat>)

  datatype Outcome = Stable(sample: Sample) | Unstable | Failed

  function Middle(start: int, finish: int): (m: int)
    ensures start <= finish ==> start <= m <= finish
  {
    start + (finish - start) / 2
  }

  function SampleOf(a: Attempt): Sample
    requires a.after.Got?
  {
    Sample(a.after.value, Middle(a.startedAt, a.finishedAt), if a.counters.Got? then Some(a.counters.value) else None)
  }

  /** A turn either decides or leaves it to the next one. */
  datatype Verdict = Decided(outcome: Outcome) | Again

  function JudgeProc(a: Attempt): Verdict {
    if a.before.Broken? then Decided(Failed)
    else if a.before.Missing? then Again
    else if a.counters.Broken? || a.after.Broken? then Decided(Failed)
    else if a.SameThread() then Decided(Stable(SampleOf(a)))
    else Again
  }

  /** Taskstats gives up at once when the thread is gone, and has no sample without counters. */
  function JudgeTaskstats(a: Attempt): Verdict {
    if a.before.Broken? then Decided(Failed)
    else if a.before.Missing? then Decided(Unstable)
    else if a.counters.Missing? then Again
    else if a.counters.Broken? || a.after.Broken? then Decided(Failed)
    else if a.SameThread() then Decided(Stable(SampleOf(a)))
    else Again
  }

  datatype Source = Proc | Taskstats

  function Judge(source: Source, a: Attempt): Verdict { if source.Proc? then JudgeProc(a) else JudgeTaskstats(a) }

  function OutcomeOf(source: Source, attempts: seq<Attempt>): Outcome {
    if attempts == [] then Unstable
    else match Judge(source, attempts[0])
      case Decided(o) => o
      case Again => OutcomeOf(source, attempts[1..])
  }

  method ReadStableTask(attempts: seq<Attempt>) returns (o: Outcome)
    requires |attempts| == ATTEMPTS
    ensures o == OutcomeOf(Proc, attempts)
  {
    for i := 0 to ATTEMPTS
      invariant OutcomeOf(Proc, attempts) == OutcomeOf(Proc, attempts[i..])
    {
      var a := attempts[i];
      assert attempts[i..][0] == a && attempts[i..][1..] == attempts[i + 1..];
      if a.before.Broken? {
        return Failed;
      }
      if a.before.Missing? {
        continue;
      }
      if a.counters.Broken? {
        return Failed;
      }
      if a.after.Broken? {
        return Failed;
      }
      if a.after.Missing? || a.before.value.tid != a.after.value.tid || a.before.value.ticks != a.after.value.ticks {
        continue;
      }
      return Stable(SampleOf(a));
    }
    o := Unstable;
  }

  method ReadStableThreadSample(attempts: seq<Attempt>) returns (o: Outcome)
    requires |attempts| == ATTEMPTS
    ensures o == OutcomeOf(Taskstats, attempts)
  {
    for i := 0 to ATTEMPTS
      invariant OutcomeOf(Taskstats, attempts) == OutcomeOf(Taskstats, attempts[i..])
    {
      var a := attempts[i];
      assert attempts[i..][0] == a && attempts[i..][1..] == attempts[i + 1..];
      if a.before.Broken? {
        return Failed;
      }
      if a.before.Missing? {
        return Unstable;
      }
      if a.counters.Missing? {
        continue;
      }
      if a.counters.Broken? {
        return Failed;
      }
      if a.after.Broken? {
        return Failed;
      }
      if a.after.Missing? {
        continue;
      }
      if a.before.value.tid != a.after.value.tid || a.before.value.ticks != a.after.value.ticks {
        continue;
      }
      return Stable(SampleOf(a));
    }
    o := Unstable;
  }

  // ---------------------------------------------------------------- the environment

  /** Which thread a path names, at each instant. */
  type World = int -> Option<Thread>

  /** A thread that left its path never comes back to it. */
  ghost predicate NeverReturns(w: World) {
    forall a, b, c :: a <= b <= c && w(a).Some? && w(a) == w(c) ==> w(b) == w(a)
  }

  /** The reads of an attempt happen in order, within its clock readings, and see the world as it is. */
  ghost predicate Sees(w: World, a: Attempt) {
    && a.startedAt <= a.beforeAt <= a.countersAt <= a.afterAt <= a.finishedAt
    && (a.before.Got? ==> w(a.beforeAt) == Some(a.before.value)) && (a.before.Missing? ==> w(a.beforeAt) == None)
    && (a.after.Got? ==> w(a.afterAt) == Some(a.after.value)) && (a.after.Missing? ==> w(a.afterAt) == None)
  }

  lemma {:induction false} DecidingAttempt(source: Source, attempts: seq<Attempt>) returns (i: nat)
    requires OutcomeOf(source, attempts).Stable?
    ensures i < |attempts| && attempts[i].SameThread()
    ensures OutcomeOf(source, attempts) == Stable(SampleOf(attempts[i]))
    ensures source.Taskstats? ==> attempts[i].counters.Got?
  {
    i := 0;
    if Judge(source, attempts[0]).Again? {
      var k := DecidingAttempt(source, attempts[1..]);
      i := k + 1;
    }
  }

  /** A sample is about one thread: the path named it at every instant from the first look to the last,
      so its counters are that thread's, and its time lies within the attempt. */
  lemma SampleIsOneThread(w: World, source: Source, attempts: seq<Attempt>) returns (i: nat)
    requires NeverReturns(w) && OutcomeOf(source, attempts).Stable?
    requires forall a :: a in attempts ==> Sees(w, a)
    ensures i < |attempts| && attempts[i].beforeAt <= attempts[i].countersAt <= attempts[i].afterAt
    ensures var a, s := attempts[i], OutcomeOf(source, attempts).sample;
      && (forall t :: a.beforeAt <= t <= a.afterAt ==> w(t) == Some(s.thread))
      && (s.counters.Some? ==> a.counters == Got(s.counters.value)) && (source.Taskstats? ==> s.counters.Some?)
      && a.startedAt <= s.timestamp <= a.finishedAt
  {
    i := DecidingAttempt(source, attempts);
    assert attempts[i] in attempts;
    assert w(attempts[i].beforeAt) == w(attempts[i].afterAt);
  }

  /** A thread that stays at its path and answers every read of an attempt is sampled by then. */
  lemma {:induction false} QuietThreadIsSampled(w: World, source: Source, attempts: seq<Attempt>, i: nat,
                                                thread: Thread)
    requires i < |attempts|
    requires forall a :: a in attempts ==>
               Sees(w, a) && !a.before.Broken? && !a.counters.Broken? && !a.after.Broken?
    requires forall a :: a in attempts ==> w(a.beforeAt) == Some(thread)
    requires w(attempts[i].afterAt) == Some(thread) && attempts[i].counters.Got?
    ensures OutcomeOf(source, attempts).Stable?
  {
    assert attempts[0] in attempts && attempts[i] in attempts;
    if Judge(source, attempts[0]).Again? {
      QuietThreadIsSampled(w, source, attempts[1..], i - 1, thread);
    }
  }
}
