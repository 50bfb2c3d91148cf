/** Value types shared by the accumulators (internal/model). */
module Model {
  import opened Windows

  datatype Identity = Identity(tid: int, ticks: nat, ns: nat)

  datatype ThreadState =
    Running | Sleeping | Uninterruptible | Stopped | TracingStop | Zombie | Dead | Idle | Unknown

  /** A quantity summed over the nine thread states. */
  function OverStates(f: ThreadState -> int): int {
    f(Running) + f(Sleeping) + f(Uninterruptible) + f(Stopped) + f(TracingStop)
    + f(Zombie) + f(Dead) + f(Idle) + f(Unknown)
  }

  datatype Resource = CPU | BlockIO | SwapIn | Reclaim | Thrashing | Compaction | WriteProtectCopy | IRQ

  /** One value for each taskstats resource. */
  datatype PerResource<T> = PerResource(cpu: T, blockIO: T, swapIn: T, reclaim: T,
                                        thrashing: T, compaction: T, writeProtectCopy: T, irq: T) {
    function At(r: Resource): T {
      match r
      case CPU => cpu
      case BlockIO => blockIO
      case SwapIn => swapIn
      case Reclaim => reclaim
      case Thrashing => thrashing
      case Compaction => compaction
      case WriteProtectCopy => writeProtectCopy
      case IRQ => irq
    }

    static function Each(f: Resource -> T): (p: PerResource<T>)
      ensures forall r :: p.At(r) == f(r)
    {
      PerResource(f(CPU), f(BlockIO), f(SwapIn), f(Reclaim),
                  f(Thrashing), f(Compaction), f(WriteProtectCopy), f(IRQ))
    }
  }

  /** An interval's share of one taskstats counter. */
  datatype DelayShare = DelayShare(available: bool, count: int, total: int)

  /** Fields of a row that come from sampled state segments. */
  datatype Sampling = Sampling(samples: int, maxGap: int, transitions: int, uncertainty: int)

  /** Scheduler fields of a row, from events or from schedstat. */
  datatype Sched = Sched(source: string, observed: int, onCPU: int, runqueue: int, timeslices: int,
                         statObserved: int, statPairs: int, statMaxGap: int, statResets: int)

  /** Scheduler-event fields of a row. */
  datatype Wakeups = Wakeups(events: int, wakeups: int, latencyTotal: int, latencyMax: int, incomplete: int)

  /** Taskstats fields of a row. */
  datatype Delay = Delay(version: nat, enabled: bool, enabledKnown: bool, observed: int, pairs: int,
                         maxGap: int, resets: int, shares: PerResource<DelayShare>)

  /** `ThreadIntervalStats`: what one report says about one thread. */
  datatype Row = Row(pid: int, id: Identity, comm: string, start: int, end: int,
                     durations: map<ThreadState, int>, total: int,
                     sampling: Sampling, sched: Sched, wakeups: Wakeups, delay: Delay) {

    function Spent(s: ThreadState): int { if s in durations then durations[s] else 0 }

    function AddSpent(s: ThreadState, delta: int): (r: Row)
      ensures forall x :: r.Spent(x) == Spent(x) + if x == s then delta else 0
      ensures r.total == total
    {
      this.(durations := durations[s := Spent(s) + delta])
    }

    /** The row's durations, over all states. */
    function SpentInAll(): int { OverStates(s => Spent(s)) }

    predicate HasDelays() { 0 < delay.pairs }
  }

  function EmptyRow(pid: int, id: Identity, comm: string, source: string, g: Grid, w: int): Row {
    Row(pid, id, comm, g.Start(w), g.End(w), map[], 0,
        Sampling(0, 0, 0, 0), Sched(source, 0, 0, 0, 0, 0, 0, 0, 0), Wakeups(0, 0, 0, 0, 0),
        Delay(0, false, false, 0, 0, 0, 0, PerResource<DelayShare>.Each(r => DelayShare(false, 0, 0))))
  }

  /** Quality of the snapshot scans behind a report. */
  datatype ScanQuality = ScanQuality(snapshots: int, maxScan: int, maxGap: int)

  /** Quality of the event timeline behind a report. */
  datatype EventQuality = EventQuality(timeline: bool, events: int, lost: nat, late: int,
                                       incomplete: int, races: int, calibration: int)

  /** Quality of the taskstats counters behind a report. */
  datatype TaskstatsQuality = TaskstatsQuality(available: bool, threads: int, versionMin: nat, versionMax: nat,
                                               resets: int, enabled: bool, enabledKnown: bool)

  /** Quality of the schedstat counters behind a report. */
  datatype SchedstatQuality = SchedstatQuality(available: bool, threads: int, resets: int)

  datatype Quality = Quality(samplingMethod: string, missed: bool, mismatches: int, scan: ScanQuality,
                             events: EventQuality, schedstat: SchedstatQuality, taskstats: TaskstatsQuality)

  function NewQuality(samplingMethod: string, missed: bool, timeline: bool): Quality {
    Quality(samplingMethod, missed, 0, ScanQuality(0, 0, 0), EventQuality(timeline, 0, 0, 0, 0, 0, 0),
            SchedstatQuality(false, 0, 0), TaskstatsQuality(false, 0, 0, 0, 0, false, false))
  }

  /** A pending window of either accumulator. */
  datatype Window = Window(stats: map<Identity, Row>, quality: Quality)

  /** The window `w` of a pending map, or the one that is created on first use. */
  function WindowOr(ws: map<int, Window>, w: int, created: Window): Window { if w in ws then ws[w] else created }

  lemma SameWindows(l: map<int, Window>, r: map<int, Window>, created: Window)
    requires forall w :: (w in l <==> w in r) && WindowOr(l, w, created) == WindowOr(r, w, created)
    ensures l == r
  {
    assert l.Keys == r.Keys by {
      forall w ensures w in l <==> w in r { assert WindowOr(l, w, created) == WindowOr(r, w, created); }
    }
    forall w | w in l ensures l[w] == r[w] { assert WindowOr(l, w, created) == WindowOr(r, w, created); }
  }

  datatype Report = Report(start: int, end: int, threads: seq<Row>, quality: Quality)
}

/** Emission order of the rows of a window (`sort.Slice` in both accumulators). */
module RowOrder {
  import opened Model

  /** Which start time the ordering compares first. */
  datatype Key = TicksFirst | NanosecondsFirst

  predicate Less(k: Key, a: Identity, b: Identity) {
    if a.tid != b.tid then a.tid < b.tid
    else if k.TicksFirst? then a.ticks < b.ticks || (a.ticks == b.ticks && a.ns < b.ns)
    else a.ns < b.ns || (a.ns == b.ns && a.ticks < b.ticks)
  }

  predicate Sorted(k: Key, ids: seq<Identity>) {
    forall i, j :: 0 <= i < j < |ids| ==> Less(k, ids[i], ids[j])
  }

  lemma HasLeast(k: Key, ids: set<Identity>) returns (least: Identity)
    requires ids != {}
    ensures least in ids && forall x :: x in ids && x != least ==> Less(k, least, x)
  {
    least :| least in ids;
    if ids != {least} {
      var other := HasLeast(k, ids - {least});
      var first := least;
      least := if Less(k, other, first) then other else first;
      forall x | x in ids && x != least ensures Less(k, least, x) {
        assert x == first || x in ids - {first};
      }
    }
  }

  /** The identities of a window in emission order. */
  ghost function Order(k: Key, ids: set<Identity>): (s: seq<Identity>)
    ensures Sorted(k, s)
    ensures forall x :: x in s <==> x in ids
  {
    if ids == {} then []
    else
      assert exists x :: x in ids && forall y :: y in ids && y != x ==> Less(k, x, y) by {
        var x := HasLeast(k, ids);
      }
      var x :| x in ids && forall y :: y in ids && y != x ==> Less(k, x, y);
      [x] + Order(k, ids - {x})
  }

  /** Any sorting algorithm emits the same rows in the same order. */
  lemma {:induction false} OrderUnique(k: Key, s: seq<Identity>, t: seq<Identity>)
    requires Sorted(k, s) && Sorted(k, t)
    requires forall x :: x in s <==> x in t
    ensures s == t
  {
    assert s != [] ==> s[0] in t;
    assert t != [] ==> t[0] in s;
    if s != [] {
      assert s[0] == t[0];
      forall x ensures x in s[1..] <==> x in t[1..] {
        assert x in s <==> x in t;
        if x in s[1..] { assert x != s[0]; assert x in s; }
        if x in t[1..] { assert x != t[0]; assert x in t; }
      }
      OrderUnique(k, s[1..], t[1..]);
      assert s == [s[0]] + s[1..] && t == [t[0]] + t[1..];
    }
  }

  /** The rows of a window as its report lists them. */
  ghost function Rows(k: Key, stats: map<Identity, Row>): (rows: seq<Row>)
    ensures |rows| == |Order(k, stats.Keys)|
  {
    seq(|Order(k, stats.Keys)|, i requires 0 <= i < |Order(k, stats.Keys)| => stats[Order(k, stats.Keys)[i]])
  }

  /** Numbers go up: threads first, then the start time that the ordering compares first, then the other. */
  lemma RowsAscend(k: Key, stats: map<Identity, Row>, i: nat, j: nat)
    requires i < j < |Rows(k, stats)| && forall id :: id in stats ==> stats[id].id == id
    ensures var a, b := Rows(k, stats)[i].id, Rows(k, stats)[j].id;
      && a.tid <= b.tid
      && (a.tid == b.tid && k.TicksFirst? ==> a.ticks <= b.ticks && (a.ticks == b.ticks ==> a.ns < b.ns))
      && (a.tid == b.tid && k.NanosecondsFirst? ==> a.ns <= b.ns && (a.ns == b.ns ==> a.ticks < b.ticks))
  {
    var ids := Order(k, stats.Keys);
    assert ids[i] in ids && ids[j] in ids;
    assert Less(k, ids[i], ids[j]);
  }

  lemma RowListed(k: Key, stats: map<Identity, Row>, id: Identity)
    requires id in stats
    ensures stats[id] in Rows(k, stats)
  {
    assert id in Order(k, stats.Keys);
    var i :| 0 <= i < |Order(k, stats.Keys)| && Order(k, stats.Keys)[i] == id;
    assert Rows(k, stats)[i] == stats[id];
  }
}
