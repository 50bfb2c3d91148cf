/** A run of the event accumulator with its books: which lifetime booked which segment,
    and what became of every observed event. */
module EventLedger {
  import opened Windows
  import opened Model
  import opened Snapshots
  import opened EventTimeline
  import opened Lifetimes

  /** A call of `addTrackSegment`: windows below `floor` were already emitted. */
  datatype Seg = Seg(life: nat, id: Identity, state: SchedState, alive: bool, lo: int, hi: int, floor: nat)

  /** What became of one observed event. */
  datatype Entry =
    | Uncounted
    | LateIn(window: nat)
    | Counted(life: nat, window: nat, id: Identity, slice: bool, latency: int, abandoned: bool)

  /** `closed[w]` and `emitted[w]` are window `w` and its report; `holder` names each TID's current lifetime. */
  datatype Run = Run(s: Timeline, closed: seq<Window>, emitted: seq<Report>, lives: seq<Life>,
                     holder: map<int, nat>, segs: seq<Seg>, entries: seq<Entry>)

  datatype Op = Observe(e: Event) | Advance(mark: int, lost: nat)

  ghost function SeedLives(origin: int, tracks: map<int, Track>, tids: set<int>): (r: (seq<Life>, map<int, nat>))
    requires tids <= tracks.Keys
    ensures r.1.Keys == tids
    ensures forall tid :: tid in tids ==> r.1[tid] < |r.0| && r.0[r.1[tid]].track == tracks[tid]
    ensures forall l :: l in r.0 ==> exists tid :: tid in tids && l == Life(origin, tracks[tid].state, [], tracks[tid])
  {
    if tids == {} then ([], map[])
    else
      var tid := Any(tids);
      var (lives, holder) := SeedLives(origin, tracks, tids - {tid});
      (lives + [Life(origin, tracks[tid].state, [], tracks[tid])], holder[tid := |lives|])
  }

  /** Each lifetime of the initial scan is the one that its own thread number names. */
  lemma {:induction false} SeedsNumbered(origin: int, tracks: map<int, Track>, tids: set<int>, i: nat)
    requires tids <= tracks.Keys && forall tid :: tid in tids ==> tracks[tid].id.tid == tid
    requires i < |SeedLives(origin, tracks, tids).0|
    ensures var seeds := SeedLives(origin, tracks, tids);
            var tid := seeds.0[i].track.id.tid; tid in tids && seeds.1[tid] == i
    decreases |tids|
  {
    var tid := Any(tids);
    var rest := SeedLives(origin, tracks, tids - {tid});
    if i < |rest.0| { SeedsNumbered(origin, tracks, tids - {tid}, i); }
  }

  ghost function Start(interval: int, snapshot: Snapshot, calibration: int): Run {
    var s := Initial(interval, snapshot, calibration);
    var (lives, holder) := SeedLives(s.grid.origin, s.tracks, s.tracks.Keys);
    Run(s, [], [], lives, holder, [], [])
  }

  /** Lifetime number an event is booked on. */
  ghost function LifeOf(r: Run, e: Event): nat {
    if !IsNewThread(r.s, e) && e.tid in r.holder then r.holder[e.tid] else |r.lives|
  }

  ghost function LifeBefore(r: Run, e: Event): Life {
    if LifeOf(r, e) < |r.lives| then r.lives[LifeOf(r, e)].(track := TrackOf(r.s, e))
    else Life(Max(r.s.grid.origin, e.timestamp), SchedState.Unknown, [], TrackOf(r.s, e))
  }

  ghost function LifeAfter(r: Run, e: Event): Life {
    var l, t := LifeBefore(r, e), TrackOf(r.s, e);
    var f := Judge(r.s.grid.origin, t, e);
    l.(track := TrackAfter(r.s.grid.origin, t, e),
       deeds := if f.Early? || f.Applied? then l.deeds + [Deed(e.timestamp, e.kind, e.state)] else l.deeds)
  }

  ghost function EntryOf(r: Run, e: Event): Entry
    requires r.s.grid.Valid()
  {
    var t := TrackOf(r.s, e);
    match FateOf(r.s, e)
    case Late => LateIn(r.s.nextWindow)
    case Applied =>
      Counted(LifeOf(r, e), r.s.grid.Index(e.timestamp), t.id, e.kind.SwitchIn?, Latency(t, e), Abandons(t, e))
    case _ => Uncounted
  }

  /** The segment an applied event closes. */
  ghost function SegOf(r: Run, e: Event): Seg {
    var t := TrackOf(r.s, e);
    Seg(LifeOf(r, e), t.id, t.state, t.alive, t.since, e.timestamp, r.s.nextWindow)
  }

  ghost function RunObserve(r: Run, e: Event): Run
    requires r.s.grid.Valid()
  {
    var n := LifeOf(r, e);
    if Ignored(e) || Expired(r.s, e) then
      r.(s := EventTimeline.Observe(r.s, e), entries := r.entries + [EntryOf(r, e)])
    else
      r.(s := EventTimeline.Observe(r.s, e), entries := r.entries + [EntryOf(r, e)],
         lives := if n < |r.lives| then r.lives[n := LifeAfter(r, e)] else r.lives + [LifeAfter(r, e)],
         holder := r.holder[e.tid := n],
         segs := if FateOf(r.s, e).Applied? then r.segs + [SegOf(r, e)] else r.segs)
  }

  /** The segment a cut closes. */
  ghost function CutSeg(r: Run, tid: int, mark: int): Seg
    requires tid in r.s.tracks && tid in r.holder
  {
    var t := r.s.tracks[tid];
    Seg(r.holder[tid], t.id, t.state, true, t.since, mark, r.s.nextWindow)
  }

  ghost function RunCut(r: Run, tid: int, mark: int): Run
    requires r.s.grid.Valid() && tid in r.s.tracks && tid in r.holder && r.holder[tid] < |r.lives|
  {
    var t, n := r.s.tracks[tid], r.holder[tid];
    if !Accruing(t, mark) then r
    else r.(s := Cut(r.s, tid, mark),
            lives := r.lives[n := r.lives[n].(track := t.(since := mark))],
            segs := r.segs + [CutSeg(r, tid, mark)])
  }

  /** TIDs have lifetimes. */
  ghost predicate Held(r: Run) {
    r.s.Valid() && r.s.tracks.Keys == r.holder.Keys && forall tid :: tid in r.holder ==> r.holder[tid] < |r.lives|
  }

  ghost function RunCutAll(r: Run, tids: set<int>, mark: int): Run
    requires Held(r) && tids <= r.s.tracks.Keys
    decreases |tids|
  {
    if tids == {} then r
    else
      var tid := Any(tids);
      CutKeeps(r.s, tid, mark);
      RunCutAll(RunCut(r, tid, mark), tids - {tid}, mark)
  }

  ghost function RunClose(r: Run, mark: int, lost: nat): Run
    requires r.s.grid.Valid()
  {
    var n, next := NextOpen(r.s, mark), r.s.nextWindow;
    r.(s := Close(r.s, mark, lost).0,
       emitted := r.emitted + Close(r.s, mark, lost).1,
       closed := r.closed + seq(n - next, i => WindowAt(r.s.windows, next + i)))
  }

  ghost function RunAdvance(r: Run, mark: int, lost: nat): Run
    requires Held(r)
  {
    if mark < r.s.grid.origin then r
    else
      var marked := r.(s := Mark(r.s, mark));
      CutAllHeld(marked, r.s.tracks.Keys, mark);
      RunClose(RunCutAll(marked, r.s.tracks.Keys, mark), mark, lost)
  }

  /** The run's state follows the accumulator's. */
  lemma {:induction false} CutAllHeld(r: Run, tids: set<int>, mark: int)
    requires Held(r) && tids <= r.s.tracks.Keys
    ensures RunCutAll(r, tids, mark).s == CutAll(r.s, tids, mark)
    ensures Held(RunCutAll(r, tids, mark))
    decreases |tids|
  {
    if tids != {} {
      var tid := Any(tids);
      CutKeeps(r.s, tid, mark);
      CutAllHeld(RunCut(r, tid, mark), tids - {tid}, mark);
    }
  }

  // ---------------------------------------------------------------- books

  /** Whose segments are summed: those written to one row, those of one lifetime, or of its living part. */
  datatype Who = OfRow(id: Identity) | OfLife(life: nat) | Living(life: nat)

  predicate Mine(x: Seg, who: Who) {
    match who
    case OfRow(id) => x.id == id
    case OfLife(n) => x.life == n
    case Living(n) => x.life == n && x.alive
  }

  /** What a segment adds to window `w`. */
  function Share(g: Grid, x: Seg, w: int): int { if x.floor <= w then g.Overlap(x.lo, x.hi, w) else 0 }

  /** Nanoseconds in state `s` booked to window `w`. */
  function Booked(g: Grid, segs: seq<Seg>, who: Who, w: int, s: SchedState): (n: int)
    ensures 0 <= n
  {
    if segs == [] then 0
    else
      var x := segs[|segs| - 1];
      Booked(g, segs[..|segs| - 1], who, w, s) + if Mine(x, who) && x.state == s then Share(g, x, w) else 0
  }

  lemma BookedMore(g: Grid, segs: seq<Seg>, x: Seg, who: Who, w: int, s: SchedState)
    ensures Booked(g, segs + [x], who, w, s) ==
            Booked(g, segs, who, w, s) + if Mine(x, who) && x.state == s then Share(g, x, w) else 0
  {
    assert (segs + [x])[..|segs|] == segs;
  }

  /** Which entries are counted: those of a row, of a window, or of a lifetime. */
  datatype Scope = InRow(w: int, id: Identity) | InWindow(w: int) | ByLife(life: nat)

  datatype Metric = Events | Timeslices | WakeupCount | LatencyTotal | Incomplete | LateEvents

  predicate Covers(sc: Scope, x: Entry) {
    match sc
    case InRow(w, id) => x.Counted? && x.window == w && x.id == id
    case InWindow(w) => !x.Uncounted? && x.window == w
    case ByLife(n) => x.Counted? && x.life == n
  }

  function Score(x: Entry, m: Metric): (n: int)
    ensures 0 <= n
  {
    match x
    case Uncounted => 0
    case LateIn(_) => if m.LateEvents? then 1 else 0
    case Counted(_, _, _, slice, latency, abandoned) =>
      match m
      case Events => 1
      case Timeslices => if slice then 1 else 0
      case WakeupCount => if 0 <= latency then 1 else 0
      case LatencyTotal => Max(0, latency)
      case Incomplete => if abandoned then 1 else 0
      case LateEvents => 0
  }

  function Sum(entries: seq<Entry>, sc: Scope, m: Metric): (n: int)
    ensures 0 <= n
  {
    if entries == [] then 0
    else
      var x := entries[|entries| - 1];
      Sum(entries[..|entries| - 1], sc, m) + if Covers(sc, x) then Score(x, m) else 0
  }

  lemma SumMore(entries: seq<Entry>, x: Entry, sc: Scope, m: Metric)
    ensures Sum(entries + [x], sc, m) == Sum(entries, sc, m) + if Covers(sc, x) then Score(x, m) else 0
  {
    assert (entries + [x])[..|entries|] == entries;
  }

  /** Longest wakeup latency counted. */
  function Longest(entries: seq<Entry>, sc: Scope): (n: int)
    ensures 0 <= n
  {
    if entries == [] then 0
    else
      var x := entries[|entries| - 1];
      var rest := Longest(entries[..|entries| - 1], sc);
      if Covers(sc, x) && x.Counted? then Max(rest, x.latency) else rest
  }

  lemma LongestMore(entries: seq<Entry>, x: Entry, sc: Scope)
    ensures Longest(entries + [x], sc) ==
            if Covers(sc, x) && x.Counted? then Max(Longest(entries, sc), x.latency) else Longest(entries, sc)
  {
    assert (entries + [x])[..|entries|] == entries;
  }
}
