/** What the event counters of a lifetime are: read off its accepted events, without the accumulator's own
    record of a pending wakeup. */
module EventWakeups {
  import opened Wrappers
  import opened Windows
  import opened Snapshots
  import opened EventTimeline
  import opened Lifetimes
  import opened EventLedger
  import opened EventInvariant
  import opened EventTheorems
  import opened EventAccounting
  import opened EventSchedule

  // ---------------------------------------------------------------- the reference

  /** State and liveness once all deeds are done. */
  function Outcome(seed: SchedState, deeds: seq<Deed>): Phase {
    if deeds == [] then Phase(seed, true) else After(Outcome(seed, deeds[..|deeds| - 1]), deeds[|deeds| - 1])
  }

  /** The latest wakeup at or after the origin that found its thread off CPU, if no switch has come since. */
  function Pending(seed: SchedState, deeds: seq<Deed>, origin: int): Option<int> {
    if deeds == [] then None
    else
      var rest, d := deeds[..|deeds| - 1], deeds[|deeds| - 1];
      if !d.kind.Wakeup? then None
      else if Outcome(seed, rest).state.OnCPU? || d.at < origin then Pending(seed, rest, origin)
      else Some(d.at)
  }

  /** A measured wait for a CPU, from the wakeup to the switch-in. */
  datatype Wait = Wait(from: int, to: int)

  function Waits(seed: SchedState, deeds: seq<Deed>, origin: int): seq<Wait> {
    if deeds == [] then []
    else
      var rest, d := deeds[..|deeds| - 1], deeds[|deeds| - 1];
      var pending := Pending(seed, rest, origin);
      Waits(seed, rest, origin) + if d.kind.SwitchIn? && pending.Some? then [Wait(pending.value, d.at)] else []
  }

  function TotalWait(waits: seq<Wait>): int {
    if waits == [] then 0
    else TotalWait(waits[..|waits| - 1]) + (waits[|waits| - 1].to - waits[|waits| - 1].from)
  }

  function LongestWait(waits: seq<Wait>): int {
    if waits == [] then 0
    else Max(LongestWait(waits[..|waits| - 1]), waits[|waits| - 1].to - waits[|waits| - 1].from)
  }

  /** Wakeups that ended in a switch-out: the thread was never seen to run. */
  function GivenUp(seed: SchedState, deeds: seq<Deed>, origin: int): nat {
    if deeds == [] then 0
    else
      var rest, d := deeds[..|deeds| - 1], deeds[|deeds| - 1];
      GivenUp(seed, rest, origin) + if d.kind.SwitchOut? && Pending(seed, rest, origin).Some? then 1 else 0
  }

  /** Deeds at or after the origin, and those of them that are switch-ins. */
  function Since(deeds: seq<Deed>, origin: int): nat {
    if deeds == [] then 0
    else Since(deeds[..|deeds| - 1], origin) + if origin <= deeds[|deeds| - 1].at then 1 else 0
  }

  function SwitchIns(deeds: seq<Deed>, origin: int): nat {
    if deeds == [] then 0
    else
      var d := deeds[|deeds| - 1];
      SwitchIns(deeds[..|deeds| - 1], origin) + if d.kind.SwitchIn? && origin <= d.at then 1 else 0
  }

  /** The event counters of a row, or of all rows of a lifetime. */
  datatype Counts = Counts(events: int, timeslices: int, wakeups: int, latencyTotal: int, latencyMax: int,
                           incomplete: int)

  function Reference(seed: SchedState, deeds: seq<Deed>, origin: int): Counts {
    var waits := Waits(seed, deeds, origin);
    Counts(Since(deeds, origin), SwitchIns(deeds, origin), |waits|, TotalWait(waits), LongestWait(waits),
           GivenUp(seed, deeds, origin))
  }

  // ---------------------------------------------------------------- the books

  function CountsOf(entries: seq<Entry>, sc: Scope): Counts {
    Counts(Sum(entries, sc, Events), Sum(entries, sc, Timeslices), Sum(entries, sc, WakeupCount),
           Sum(entries, sc, LatencyTotal), Longest(entries, sc), Sum(entries, sc, Incomplete))
  }

  function Counting(c: Counts, x: Entry): Counts {
    if !x.Counted? then c
    else Counts(c.events + 1, c.timeslices + (if x.slice then 1 else 0), c.wakeups + (if 0 <= x.latency then 1 else 0),
                c.latencyTotal + Max(0, x.latency), Max(c.latencyMax, x.latency),
                c.incomplete + if x.abandoned then 1 else 0)
  }

  lemma CountsMore(entries: seq<Entry>, x: Entry, n: nat)
    ensures CountsOf(entries + [x], ByLife(n)) ==
            if Covers(ByLife(n), x) then Counting(CountsOf(entries, ByLife(n)), x) else CountsOf(entries, ByLife(n))
  {
    var sc := ByLife(n);
    SumMore(entries, x, sc, Events);
    SumMore(entries, x, sc, Timeslices);
    SumMore(entries, x, sc, WakeupCount);
    SumMore(entries, x, sc, LatencyTotal);
    SumMore(entries, x, sc, Incomplete);
    LongestMore(entries, x, sc);
  }

  lemma {:induction false} NothingCounted(entries: seq<Entry>, n: nat)
    requires forall x :: x in entries && x.Counted? ==> x.life != n
    ensures CountsOf(entries, ByLife(n)) == Counts(0, 0, 0, 0, 0, 0)
  {
    if entries != [] { NothingCounted(entries[..|entries| - 1], n); }
  }

  /** One more deed, by its kind. */
  lemma OneMoreDeed(seed: SchedState, deeds: seq<Deed>, d: Deed, origin: int)
    ensures var c, k := Reference(seed, deeds, origin), Reference(seed, deeds + [d], origin);
            var pending, one := Pending(seed, deeds, origin), if origin <= d.at then 1 else 0;
      && k.events == c.events + one && k.timeslices == c.timeslices + (if d.kind.SwitchIn? then one else 0)
      && k.incomplete == c.incomplete + (if d.kind.SwitchOut? && pending.Some? then 1 else 0)
      && (if d.kind.SwitchIn? && pending.Some?
          then var wait := d.at - pending.value;
               k.wakeups == c.wakeups + 1 && k.latencyTotal == c.latencyTotal + wait
               && k.latencyMax == Max(c.latencyMax, wait)
          else k.wakeups == c.wakeups && k.latencyTotal == c.latencyTotal && k.latencyMax == c.latencyMax)
  {
    assert (deeds + [d])[..|deeds|] == deeds;
    var waits, pending := Waits(seed, deeds, origin), Pending(seed, deeds, origin);
    if d.kind.SwitchIn? && pending.Some? {
      var w := Wait(pending.value, d.at);
      assert Waits(seed, deeds + [d], origin) == waits + [w] && (waits + [w])[..|waits|] == waits;
    } else {
      assert Waits(seed, deeds + [d], origin) == waits + [] == waits;
    }
  }

  lemma PendingMore(seed: SchedState, deeds: seq<Deed>, d: Deed, origin: int)
    ensures Pending(seed, deeds + [d], origin) ==
            if !d.kind.Wakeup? then None
            else if Outcome(seed, deeds).state.OnCPU? || d.at < origin then Pending(seed, deeds, origin)
            else Some(d.at)
  {
    assert (deeds + [d])[..|deeds|] == deeds;
  }

  lemma {:induction false} OutcomeIsReplay(seed: SchedState, deeds: seq<Deed>, t: int)
    requires forall i :: 0 <= i < |deeds| ==> deeds[i].at <= t
    ensures Outcome(seed, deeds) == Replay(seed, deeds, t)
  {
    if deeds != [] { OutcomeIsReplay(seed, deeds[..|deeds| - 1], t); }
  }

  // ---------------------------------------------------------------- one event

  predicate Awaits(t: Track, pending: Option<int>) {
    if pending.Some? then t.wakeupAt == pending.value != 0 else t.wakeupAt == 0
  }

  /** The books of lifetime `n` are those of its deeds. */
  predicate Tallied(origin: int, entries: seq<Entry>, l: Life, n: nat) {
    && Awaits(l.track, Pending(l.seed, l.deeds, origin))
    && CountsOf(entries, ByLife(n)) == Reference(l.seed, l.deeds, origin)
  }

  lemma StillAwaits(origin: int, l: Life, e: Event, measure: bool, t: Track)
    requires l.Ok(origin) && Awaits(l.track, Pending(l.seed, l.deeds, origin)) && e.timestamp != 0
    requires t.wakeupAt == Transition(origin, l.track, e, measure).wakeupAt && (origin <= e.timestamp ==> measure)
    ensures Awaits(t, Pending(l.seed, l.deeds + [Deed(e.timestamp, e.kind, e.state)], origin))
  {
    OutcomeIsReplay(l.seed, l.deeds, l.track.since);
    PendingMore(l.seed, l.deeds, Deed(e.timestamp, e.kind, e.state), origin);
  }

  lemma AppliedTallied(origin: int, entries: seq<Entry>, l: Life, k: Life, n: nat, e: Event, x: Entry)
    requires l.Ok(origin) && Tallied(origin, entries, l, n)
    requires origin <= e.timestamp && e.timestamp != 0 && l.track.lastEvent <= e.timestamp
    requires x.Counted? && x.life == n && x.slice == e.kind.SwitchIn?
    requires x.latency == Latency(l.track, e) && x.abandoned == Abandons(l.track, e)
    requires k.seed == l.seed && k.deeds == l.deeds + [Deed(e.timestamp, e.kind, e.state)]
    requires k.track.wakeupAt == Transition(origin, l.track, e, true).wakeupAt
    ensures Tallied(origin, entries + [x], k, n)
  {
    StillAwaits(origin, l, e, true, k.track);
    CountsMore(entries, x, n);
    OneMoreDeed(l.seed, l.deeds, Deed(e.timestamp, e.kind, e.state), origin);
  }

  /** Before the origin nothing is counted, and no wakeup can be pending. */
  lemma EarlyTallied(origin: int, entries: seq<Entry>, l: Life, k: Life, n: nat, e: Event, x: Entry)
    requires l.Ok(origin) && Tallied(origin, entries, l, n)
    requires e.timestamp < origin && e.timestamp != 0 && l.track.lastEvent <= e.timestamp && !x.Counted?
    requires k.seed == l.seed && k.deeds == l.deeds + [Deed(e.timestamp, e.kind, e.state)]
    requires k.track.wakeupAt == Transition(origin, l.track, e, false).wakeupAt
    ensures Tallied(origin, entries + [x], k, n)
  {
    StillAwaits(origin, l, e, false, k.track);
    CountsMore(entries, x, n);
    OneMoreDeed(l.seed, l.deeds, Deed(e.timestamp, e.kind, e.state), origin);
  }

  lemma OtherTallied(origin: int, entries: seq<Entry>, l: Life, k: Life, n: nat, x: Entry)
    requires Tallied(origin, entries, l, n) && !Covers(ByLife(n), x)
    requires k.seed == l.seed && k.deeds == l.deeds && k.track.wakeupAt == l.track.wakeupAt
    ensures Tallied(origin, entries + [x], k, n)
  {
    CountsMore(entries, x, n);
  }

  // ---------------------------------------------------------------- every run

  ghost predicate AllTallied(r: Run) {
    forall n: nat | n < |r.lives| :: Tallied(r.s.grid.origin, r.entries, r.lives[n], n)
  }

  lemma BeforeTallied(r: Run, e: Event)
    requires Inv(r, r.s.watermark) && AllTallied(r) && !Ignored(e) && !Expired(r.s, e)
    ensures Tallied(r.s.grid.origin, r.entries, LifeBefore(r, e), LifeOf(r, e))
  {
    var n := LifeOf(r, e);
    if n < |r.lives| {
      assert Tallied(r.s.grid.origin, r.entries, r.lives[n], n);
      assert r.lives[n].track.wakeupAt == TrackOf(r.s, e).wakeupAt;
    } else {
      NothingCounted(r.entries, n);
    }
  }

  lemma SubjectTallied(r: Run, e: Event)
    requires Inv(r, r.s.watermark) && AllTallied(r) && !Ignored(e) && !Expired(r.s, e)
    ensures Tallied(r.s.grid.origin, RunObserve(r, e).entries, LifeAfter(r, e), LifeOf(r, e))
  {
    var o, n, l, x := r.s.grid.origin, LifeOf(r, e), LifeBefore(r, e), EntryOf(r, e);
    BeforeTallied(r, e);
    LifeBeforeOk(r, e);
    LifeAfterShape(r, e);
    var f := Judge(o, l.track, e);
    if f.Applied? {
      AppliedTallied(o, r.entries, l, LifeAfter(r, e), n, e, x);
    } else if f.Early? {
      EarlyTallied(o, r.entries, l, LifeAfter(r, e), n, e, x);
    } else {
      OtherTallied(o, r.entries, l, LifeAfter(r, e), n, x);
    }
  }

  lemma ObserveTallied(r: Run, e: Event)
    requires Inv(r, r.s.watermark) && AllTallied(r)
    ensures AllTallied(RunObserve(r, e))
  {
    var q := RunObserve(r, e);
    ObserveFrame(r.s, e);
    forall n: nat | n < |q.lives| ensures Tallied(q.s.grid.origin, q.entries, q.lives[n], n) {
      if !Ignored(e) && !Expired(r.s, e) && n == LifeOf(r, e) {
        SubjectTallied(r, e);
      } else {
        assert Tallied(r.s.grid.origin, r.entries, r.lives[n], n);
        OtherTallied(r.s.grid.origin, r.entries, r.lives[n], r.lives[n], n, EntryOf(r, e));
      }
    }
  }

  lemma OneCutTallied(r: Run, tid: int, mark: int)
    requires Follows(r) && tid in r.s.tracks && AllTallied(r)
    ensures AllTallied(RunCut(r, tid, mark))
  {
    var q := RunCut(r, tid, mark);
    forall n: nat | n < |q.lives| ensures Tallied(q.s.grid.origin, q.entries, q.lives[n], n) {
      assert Tallied(r.s.grid.origin, r.entries, r.lives[n], n);
    }
  }

  lemma {:induction false} CutsTallied(r: Run, tids: set<int>, mark: int)
    requires Follows(r) && tids <= r.s.tracks.Keys && AllTallied(r)
    ensures AllTallied(RunCutAll(r, tids, mark))
    decreases |tids|
  {
    if tids != {} {
      var tid := Any(tids);
      CutKeeps(r.s, tid, mark);
      CutFollows(r, tid, mark);
      OneCutTallied(r, tid, mark);
      CutsTallied(RunCut(r, tid, mark), tids - {tid}, mark);
    }
  }

  lemma SameTallied(r: Run, q: Run)
    requires AllTallied(r) && q.lives == r.lives && q.entries == r.entries && q.s.grid == r.s.grid
    ensures AllTallied(q)
  {
    forall n: nat | n < |q.lives| ensures Tallied(q.s.grid.origin, q.entries, q.lives[n], n) {
      assert Tallied(r.s.grid.origin, r.entries, r.lives[n], n);
    }
  }

  lemma AdvanceTallied(r: Run, mark: int, lost: nat)
    requires Follows(r) && AllTallied(r)
    ensures AllTallied(RunAdvance(r, mark, lost))
  {
    if r.s.grid.origin <= mark {
      var marked, tids := r.(s := Mark(r.s, mark)), r.s.tracks.Keys;
      SameTallied(r, marked);
      CutAllHeld(marked, tids, mark);
      CutsTallied(marked, tids, mark);
      SameTallied(RunCutAll(marked, tids, mark), RunAdvance(r, mark, lost));
    }
  }

  lemma StartTallied(interval: int, snapshot: Snapshot, calibration: int)
    requires 0 < interval
    ensures AllTallied(Start(interval, snapshot, calibration))
  {
    var r := Start(interval, snapshot, calibration);
    forall n: nat | n < |r.lives| ensures Tallied(r.s.grid.origin, r.entries, r.lives[n], n) {
      StartLife(interval, snapshot, calibration, n);
      assert r.lives[n] in r.lives;
      NothingCounted(r.entries, n);
    }
  }

  lemma {:induction false} RunTallied(interval: int, snapshot: Snapshot, calibration: int, ops: seq<Op>)
    requires 0 < interval
    ensures AllTallied(Exec(interval, snapshot, calibration, ops))
  {
    if ops == [] {
      StartTallied(interval, snapshot, calibration);
    } else {
      var r := Exec(interval, snapshot, calibration, ops[..|ops| - 1]);
      RunTallied(interval, snapshot, calibration, ops[..|ops| - 1]);
      match ops[|ops| - 1] {
        case Observe(e) => ObserveTallied(r, e);
        case Advance(mark, lost) => AdvanceTallied(r, mark, lost);
      }
    }
  }

  /** The event counters of a lifetime are those of its deeds, and its track holds the pending wakeup. */
  lemma CountersAreTheDeeds(r: Run, n: nat)
    requires Reachable(r) && n < |r.lives|
    ensures var l, sc, o := r.lives[n], ByLife(n), r.s.grid.origin;
            var waits, pending := Waits(l.seed, l.deeds, o), Pending(l.seed, l.deeds, o);
      && Sum(r.entries, sc, WakeupCount) == |waits| && Sum(r.entries, sc, LatencyTotal) == TotalWait(waits)
      && Longest(r.entries, sc) == LongestWait(waits) && Sum(r.entries, sc, Incomplete) == GivenUp(l.seed, l.deeds, o)
      && Sum(r.entries, sc, Events) == Since(l.deeds, o) && Sum(r.entries, sc, Timeslices) == SwitchIns(l.deeds, o)
      && (l.track.wakeupAt != 0 <==> pending.Some?) && (pending.Some? ==> l.track.wakeupAt == pending.value)
  {
    var interval, snapshot, calibration, ops :| 0 < interval && r == Exec(interval, snapshot, calibration, ops);
    RunTallied(interval, snapshot, calibration, ops);
    assert Tallied(r.s.grid.origin, r.entries, r.lives[n], n);
  }

  // ---------------------------------------------------------------- waits are run-queue time

  ghost predicate InOrder(deeds: seq<Deed>) { forall i, j :: 0 <= i < j < |deeds| ==> deeds[i].at <= deeds[j].at }

  ghost predicate DeathIsLast(deeds: seq<Deed>) { forall i :: 0 <= i < |deeds| - 1 ==> !deeds[i].IsDeath() }

  ghost predicate NoDeath(deeds: seq<Deed>) { forall i :: 0 <= i < |deeds| ==> !deeds[i].IsDeath() }

  /** A pending wakeup is the last deed, and left its thread in the run queue. */
  lemma {:induction false} PendingIsLast(seed: SchedState, deeds: seq<Deed>, origin: int)
    requires InOrder(deeds) && Pending(seed, deeds, origin).Some?
    ensures deeds != [] && origin <= deeds[|deeds| - 1].at
    ensures Pending(seed, deeds, origin).value == deeds[|deeds| - 1].at
    ensures Outcome(seed, deeds).state == Runnable
  {
    var rest, d := deeds[..|deeds| - 1], deeds[|deeds| - 1];
    if Outcome(seed, rest).state.OnCPU? || d.at < origin { PendingIsLast(seed, rest, origin); }
  }

  /** While a wakeup is pending the living thread is in the run queue. */
  lemma PendingIsQueued(seed: SchedState, deeds: seq<Deed>, origin: int, t: int)
    requires InOrder(deeds) && NoDeath(deeds) && Pending(seed, deeds, origin).Some?
    requires Pending(seed, deeds, origin).value <= t
    ensures Measure(seed, deeds, Pending(seed, deeds, origin).value, t, Runnable) ==
            t - Pending(seed, deeds, origin).value
  {
    PendingIsLast(seed, deeds, origin);
    var p := deeds[|deeds| - 1].at;
    OutcomeIsReplay(seed, deeds, p);
    AliveBeforeDeath(seed, deeds, p);
    Steady(seed, deeds, p, t, Runnable);
  }

  /** A wait lies in the past and is run-queue time throughout. */
  predicate Queued(seed: SchedState, deeds: seq<Deed>, origin: int, w: Wait) {
    && origin <= w.from <= w.to && deeds != [] && w.to <= deeds[|deeds| - 1].at
    && Measure(seed, deeds, w.from, w.to, Runnable) == w.to - w.from
  }

  ghost predicate Apart(waits: seq<Wait>) { forall i, j :: 0 <= i < j < |waits| ==> waits[i].to <= waits[j].from }

  lemma StaysQueued(seed: SchedState, rest: seq<Deed>, d: Deed, origin: int, w: Wait)
    requires Queued(seed, rest, origin, w) && rest[|rest| - 1].at <= d.at
    ensures Queued(seed, rest + [d], origin, w)
  {
    PastKept(seed, rest, d, w.from, w.to, Runnable);
  }

  lemma EndsQueued(seed: SchedState, rest: seq<Deed>, d: Deed, origin: int)
    requires InOrder(rest) && NoDeath(rest) && Pending(seed, rest, origin).Some?
    requires rest != [] ==> rest[|rest| - 1].at <= d.at
    ensures Queued(seed, rest + [d], origin, Wait(Pending(seed, rest, origin).value, d.at))
  {
    PendingIsLast(seed, rest, origin);
    PendingIsQueued(seed, rest, origin, d.at);
    PastKept(seed, rest, d, rest[|rest| - 1].at, d.at, Runnable);
  }

  ghost predicate AllQueued(seed: SchedState, deeds: seq<Deed>, origin: int, waits: seq<Wait>) {
    forall w :: w in waits ==> Queued(seed, deeds, origin, w)
  }

  lemma AllStayQueued(seed: SchedState, rest: seq<Deed>, d: Deed, origin: int, waits: seq<Wait>)
    requires AllQueued(seed, rest, origin, waits) && (rest != [] ==> rest[|rest| - 1].at <= d.at)
    ensures AllQueued(seed, rest + [d], origin, waits)
  {
    forall w | w in waits ensures Queued(seed, rest + [d], origin, w) { StaysQueued(seed, rest, d, origin, w); }
  }

  lemma OneMoreApart(seed: SchedState, rest: seq<Deed>, origin: int, waits: seq<Wait>, w: Wait)
    requires AllQueued(seed, rest, origin, waits) && Apart(waits) && rest != [] && w.from == rest[|rest| - 1].at
    ensures Apart(waits + [w])
  {
    forall i | 0 <= i < |waits| ensures waits[i].to <= w.from { assert waits[i] in waits; }
  }

  lemma {:induction false} WaitsQueued(seed: SchedState, deeds: seq<Deed>, origin: int)
    requires InOrder(deeds) && DeathIsLast(deeds)
    ensures Apart(Waits(seed, deeds, origin)) && AllQueued(seed, deeds, origin, Waits(seed, deeds, origin))
  {
    if deeds != [] {
      var rest, d := deeds[..|deeds| - 1], deeds[|deeds| - 1];
      var waits, pending := Waits(seed, rest, origin), Pending(seed, rest, origin);
      assert rest + [d] == deeds;
      WaitsQueued(seed, rest, origin);
      AllStayQueued(seed, rest, d, origin, waits);
      if d.kind.SwitchIn? && pending.Some? {
        PendingIsLast(seed, rest, origin);
        EndsQueued(seed, rest, d, origin);
        OneMoreApart(seed, rest, origin, waits, Wait(pending.value, d.at));
        assert Waits(seed, deeds, origin) == waits + [Wait(pending.value, d.at)];
      } else {
        assert Waits(seed, deeds, origin) == waits + [] == waits;
      }
    }
  }

  /** Each measured wait of a lifetime is time in the run queue from its wakeup to its switch-in, and the
      waits follow one another. */
  lemma WaitsAreQueueTime(r: Run, n: nat, i: nat)
    requires Reachable(r) && n < |r.lives| && r.lives[n].NothingAfterDeath()
    requires i < |Waits(r.lives[n].seed, r.lives[n].deeds, r.s.grid.origin)|
    ensures var l := r.lives[n]; var waits := Waits(l.seed, l.deeds, r.s.grid.origin); var w := waits[i];
            && r.s.grid.origin <= w.from <= w.to && l.Measured(w.from, w.to, Runnable) == w.to - w.from
            && forall j :: i < j < |waits| ==> w.to <= waits[j].from
  {
    LifeIsOk(r, n);
    var l, o := r.lives[n], r.s.grid.origin;
    WaitsQueued(l.seed, l.deeds, o);
    assert Queued(l.seed, l.deeds, o, Waits(l.seed, l.deeds, o)[i]);
  }

  // ---------------------------------------------------------------- no other run-queue time

  /** Every stay in the run queue starts with one wakeup, at or after the origin, and ends in a switch-in. */
  predicate OneWakeupPerWait(seed: SchedState, deeds: seq<Deed>, origin: int) {
    if deeds == [] then seed != Runnable
    else
      var rest, d := deeds[..|deeds| - 1], deeds[|deeds| - 1];
      var before := Outcome(seed, rest).state;
      && OneWakeupPerWait(seed, rest, origin)
      && match d.kind
         case Wakeup => before.OnCPU? || (before != Runnable && origin <= d.at)
         case SwitchIn => true
         case SwitchOut => before != Runnable && d.state != Runnable
  }

  function StillWaiting(pending: Option<int>, t: int): int { if pending.Some? then t - pending.value else 0 }

  /** Under that condition the thread is in the run queue exactly while a wakeup is pending. */
  lemma {:induction false} QueuedIsPending(seed: SchedState, deeds: seq<Deed>, origin: int)
    requires InOrder(deeds) && OneWakeupPerWait(seed, deeds, origin)
    ensures Outcome(seed, deeds).state == Runnable <==> Pending(seed, deeds, origin).Some?
  {
    if Pending(seed, deeds, origin).Some? {
      PendingIsLast(seed, deeds, origin);
    } else if deeds != [] {
      QueuedIsPending(seed, deeds[..|deeds| - 1], origin);
    }
  }

  /** Run-queue time after the last deed. */
  lemma QueuedSince(seed: SchedState, deeds: seq<Deed>, origin: int, lo: int, t: int)
    requires InOrder(deeds) && DeathIsLast(deeds) && OneWakeupPerWait(seed, deeds, origin) && lo <= t
    requires forall i :: 0 <= i < |deeds| ==> deeds[i].at <= lo
    ensures Measure(seed, deeds, lo, t, Runnable) == if Pending(seed, deeds, origin).Some? then t - lo else 0
  {
    QueuedIsPending(seed, deeds, origin);
    OutcomeIsReplay(seed, deeds, lo);
    Steady(seed, deeds, lo, t, Runnable);
    if Pending(seed, deeds, origin).Some? {
      assert NoDeath(deeds);
      AliveBeforeDeath(seed, deeds, lo);
    }
  }

  lemma {:induction false} NoWaitBeforeOrigin(seed: SchedState, deeds: seq<Deed>, origin: int)
    requires forall i :: 0 <= i < |deeds| ==> deeds[i].at < origin
    ensures Waits(seed, deeds, origin) == [] && Pending(seed, deeds, origin).None?
  {
    if deeds != [] { NoWaitBeforeOrigin(seed, deeds[..|deeds| - 1], origin); }
  }

  lemma {:induction false} QueueTimeIsWaits(seed: SchedState, deeds: seq<Deed>, origin: int, t: int)
    requires InOrder(deeds) && DeathIsLast(deeds) && OneWakeupPerWait(seed, deeds, origin)
    requires origin <= t && forall i :: 0 <= i < |deeds| ==> deeds[i].at <= t
    ensures Measure(seed, deeds, origin, t, Runnable) ==
            TotalWait(Waits(seed, deeds, origin)) + StillWaiting(Pending(seed, deeds, origin), t)
  {
    if deeds == [] || deeds[|deeds| - 1].at < origin {
      NoWaitBeforeOrigin(seed, deeds, origin);
      QueuedSince(seed, deeds, origin, origin, t);
    } else {
      var rest, d := deeds[..|deeds| - 1], deeds[|deeds| - 1];
      assert rest + [d] == deeds;
      QueueTimeIsWaits(seed, rest, origin, d.at);
      PastKept(seed, rest, d, origin, d.at, Runnable);
      Split(seed, deeds, origin, d.at, t, Runnable);
      QueuedSince(seed, deeds, origin, d.at, t);
      QueuedIsPending(seed, rest, origin);
      OneMoreDeed(seed, rest, d, origin);
    }
  }

  /** With one wakeup per wait, the counted latencies and the pending one are all of the run-queue time that
      the lifetime was booked. */
  lemma LatencyIsAllQueueTime(r: Run, n: nat, m: nat)
    requires Reachable(r) && n < |r.lives| && r.lives[n].NothingAfterDeath()
    requires OneWakeupPerWait(r.lives[n].seed, r.lives[n].deeds, r.s.grid.origin)
    requires r.lives[n].track.since <= r.s.grid.Start(m)
    ensures Sum(r.entries, ByLife(n), LatencyTotal) + Waiting(r.lives[n].track) == QueueTime(r.s.grid, r.segs, n, m)
  {
    var l, o := r.lives[n], r.s.grid.origin;
    LifeIsOk(r, n);
    CountersAreTheDeeds(r, n);
    QueueTimeIsWaits(l.seed, l.deeds, o, l.track.since);
    Split(l.seed, l.deeds, o, l.born, l.track.since, Runnable);
    QueueTimeMeasured(r, n, m);
    LatencyIsQueueTime(r, n, m);
  }
}
