/** What `EventAccumulator` computes, as functions on its state
    (internal/collector/event_accumulator.go). */
module EventTimeline {
  import opened Windows
  import opened Model
  import opened RowOrder
  import opened Snapshots

  const METHOD: string := "ebpf_sched_events"

  datatype SchedState =
    Unknown | OnCPU | Runnable | Sleeping | Uninterruptible | Stopped | TracingStop | Idle | Dead

  /** A quantity summed over the nine scheduler states. */
  function OverSchedStates(f: SchedState -> int): int {
    f(SchedState.Unknown) + f(OnCPU) + f(Runnable) + f(SchedState.Sleeping) + f(SchedState.Uninterruptible)
    + f(SchedState.Stopped) + f(SchedState.TracingStop) + f(SchedState.Idle) + f(SchedState.Dead)
  }

  lemma SomePositive(f: SchedState -> int) returns (s: SchedState)
    requires 0 < OverSchedStates(f)
    ensures 0 < f(s)
  {
    s := SchedState.Unknown;
    if 0 < f(OnCPU) { s := OnCPU; }
    if 0 < f(Runnable) { s := Runnable; }
    if 0 < f(SchedState.Sleeping) { s := SchedState.Sleeping; }
    if 0 < f(SchedState.Uninterruptible) { s := SchedState.Uninterruptible; }
    if 0 < f(SchedState.Stopped) { s := SchedState.Stopped; }
    if 0 < f(SchedState.TracingStop) { s := SchedState.TracingStop; }
    if 0 < f(SchedState.Idle) { s := SchedState.Idle; }
    if 0 < f(SchedState.Dead) { s := SchedState.Dead; }
  }

  datatype Kind = Wakeup | SwitchIn | SwitchOut

  datatype Event = Event(timestamp: int, pid: int, tid: int, ticks: nat, ns: nat, comm: string,
                         kind: Kind, state: SchedState)

  datatype Track = Track(pid: int, id: Identity, comm: string, state: SchedState, since: int,
                         seedAt: int, lastEvent: int, wakeupAt: int, alive: bool)

  datatype Timeline = Timeline(grid: Grid, tracks: map<int, Track>, windows: map<int, Window>,
                               nextWindow: nat, watermark: int, advanced: bool, calibration: int) {
    ghost predicate Valid() {
      grid.Valid() && forall tid :: tid in tracks ==> tracks[tid].id.tid == tid
    }
  }

  function InitialState(s: ThreadState): SchedState {
    match s
    case Sleeping => SchedState.Sleeping
    case Uninterruptible => SchedState.Uninterruptible
    case Stopped => SchedState.Stopped
    case TracingStop => SchedState.TracingStop
    case Idle => SchedState.Idle
    case Dead => SchedState.Dead
    case Zombie => SchedState.Dead
    case Running => SchedState.Unknown
    case Unknown => SchedState.Unknown
  }

  function SeedTrack(origin: int, s: Sample): Track {
    var seedAt := if s.timestamp == 0 then origin else s.timestamp;
    Track(s.pid, s.id, s.comm, InitialState(s.state), origin, seedAt, seedAt, 0, true)
  }

  /** Tracks of the initial scan; a repeated TID keeps its last sample. */
  function SeedTracks(origin: int, samples: seq<Sample>): (m: map<int, Track>)
    ensures forall tid :: tid in m ==>
              m[tid].id.tid == tid && exists s :: s in samples && m[tid] == SeedTrack(origin, s)
  {
    if samples == [] then map[]
    else
      var last := samples[|samples| - 1];
      SeedTracks(origin, samples[..|samples| - 1])[last.id.tid := SeedTrack(origin, last)]
  }

  function Initial(interval: int, snapshot: Snapshot, calibration: int): Timeline {
    Timeline(Grid(snapshot.finishedAt, interval), SeedTracks(snapshot.finishedAt, snapshot.samples),
             map[], 0, snapshot.finishedAt, false, calibration)
  }

  // ---------------------------------------------------------------- rows

  const NEW_WINDOW: Window := Window(map[], NewQuality(METHOD, false, true))

  function WindowAt(ws: map<int, Window>, w: int): Window { WindowOr(ws, w, NEW_WINDOW) }

  /** The row a track writes to in a window, created on first use. */
  function RowFor(g: Grid, w: int, win: Window, t: Track): Row {
    var row := if t.id in win.stats then win.stats[t.id] else EmptyRow(t.pid, t.id, t.comm, METHOD, g, w);
    if t.comm != "" then row.(comm := t.comm) else row
  }

  function Charged(s: SchedState): ThreadState {
    match s
    case OnCPU => ThreadState.Running
    case Runnable => ThreadState.Running
    case Sleeping => ThreadState.Sleeping
    case Uninterruptible => ThreadState.Uninterruptible
    case Stopped => ThreadState.Stopped
    case TracingStop => ThreadState.TracingStop
    case Idle => ThreadState.Idle
    case Dead => ThreadState.Dead
    case Unknown => ThreadState.Unknown
  }

  /** Adds `delta` nanoseconds spent in scheduler state `s` to a row. */
  function Accrue(row: Row, s: SchedState, delta: int): Row {
    row.AddSpent(Charged(s), delta).(
      total := row.total + delta,
      sched := row.sched.(observed := row.sched.observed + delta,
                          onCPU := row.sched.onCPU + if s.OnCPU? then delta else 0,
                          runqueue := row.sched.runqueue + if s.Runnable? then delta else 0))
  }

  function Post(g: Grid, w: int, win: Window, t: Track, delta: int): Window {
    win.(stats := win.stats[t.id := Accrue(RowFor(g, w, win, t), t.state, delta)])
  }

  /** `[lo, hi)` of a track's state, handed to every open window it reaches. */
  function Book(g: Grid, ws: map<int, Window>, floor: nat, t: Track, lo: int, hi: int): (r: map<int, Window>)
    requires g.Valid()
  {
    var touched := g.Touched(floor, lo, hi);
    map w | w in ws.Keys + touched ::
      if w in touched then Post(g, w, WindowAt(ws, w), t, g.Overlap(lo, hi, w)) else ws[w]
  }

  /** Time from the pending wakeup to a switch-in, when one is measured. */
  function Latency(t: Track, e: Event): (l: int)
    ensures e.timestamp < t.wakeupAt ==> l == -1
  {
    if e.kind.SwitchIn? && t.wakeupAt != 0 && t.wakeupAt <= e.timestamp then e.timestamp - t.wakeupAt else -1
  }

  predicate Abandons(t: Track, e: Event) { e.kind.SwitchOut? && t.wakeupAt != 0 }

  function Tally(row: Row, t: Track, e: Event): Row {
    var k, latency := row.wakeups, Latency(t, e);
    row.(sched := row.sched.(timeslices := row.sched.timeslices + if e.kind.SwitchIn? then 1 else 0),
         wakeups := Wakeups(k.events + 1,
                            k.wakeups + if 0 <= latency then 1 else 0,
                            k.latencyTotal + Max(0, latency),
                            Max(k.latencyMax, latency),
                            k.incomplete + if Abandons(t, e) then 1 else 0))
  }

  /** Counts an accepted event in the window of its timestamp. */
  function RecordEvent(g: Grid, ws: map<int, Window>, t: Track, e: Event): map<int, Window>
    requires g.Valid()
  {
    var w := g.Index(e.timestamp);
    var win := WindowAt(ws, w);
    var q := win.quality.events;
    ws[w := Window(win.stats[t.id := Tally(RowFor(g, w, win, t), t, e)],
                   win.quality.(events := q.(events := q.events + 1,
                                             incomplete := q.incomplete + if Abandons(t, e) then 1 else 0)))]
  }

  function RecordLate(ws: map<int, Window>, next: nat): map<int, Window> {
    var win := WindowAt(ws, next);
    var q := win.quality.events;
    ws[next := win.(quality := win.quality.(events := q.(late := q.late + 1)))]
  }

  function RecordRace(g: Grid, ws: map<int, Window>, next: nat, at: int): map<int, Window>
    requires g.Valid()
  {
    var w := if at < g.origin then next else Max(next, g.Index(at));
    var win := WindowAt(ws, w);
    var q := win.quality.events;
    ws[w := win.(quality := win.quality.(events := q.(races := q.races + 1)))]
  }

  // ---------------------------------------------------------------- Observe

  predicate IdentityChanged(t: Track, e: Event) {
    || (e.ticks != 0 && t.id.ticks != 0 && e.ticks != t.id.ticks)
    || (e.ns != 0 && t.id.ns != 0 && e.ns != t.id.ns)
  }

  function NewTrack(origin: int, e: Event): Track {
    Track(e.pid, Identity(e.tid, e.ticks, e.ns), e.comm, SchedState.Unknown, Max(origin, e.timestamp),
          e.timestamp, e.timestamp, 0, true)
  }

  /** Fills in what the event knows and the track did not. */
  function Complete(t: Track, e: Event): Track {
    t.(id := Identity(t.id.tid, if e.ticks != 0 then e.ticks else t.id.ticks, if e.ns != 0 then e.ns else t.id.ns),
       pid := if 0 < e.pid then e.pid else t.pid,
       comm := if e.comm != "" then e.comm else t.comm)
  }

  function Transition(origin: int, t: Track, e: Event, measure: bool): Track {
    match e.kind
    case Wakeup =>
      if t.state.OnCPU? then t
      else t.(state := Runnable,
              wakeupAt := if measure && origin <= e.timestamp then e.timestamp else t.wakeupAt)
    case SwitchIn => t.(state := OnCPU, alive := true, wakeupAt := 0)
    case SwitchOut => t.(state := e.state, wakeupAt := 0, alive := t.alive && !e.state.Dead?)
  }

  /** The branch of `Observe` an event takes. */
  datatype Fate = Invalid | Late | BeforeSeed | Raced | Early | Applied

  predicate IsNewThread(s: Timeline, e: Event) {
    e.tid !in s.tracks || IdentityChanged(s.tracks[e.tid], e)
  }

  /** The track an event is about, with its identity completed. */
  function TrackOf(s: Timeline, e: Event): Track {
    if IsNewThread(s, e) then NewTrack(s.grid.origin, e) else Complete(s.tracks[e.tid], e)
  }

  predicate Ignored(e: Event) { e.timestamp == 0 || e.tid <= 0 }

  predicate Expired(s: Timeline, e: Event) { s.advanced && e.timestamp < s.watermark }

  /** What happens to an event once its track is known. */
  function Judge(origin: int, t: Track, e: Event): Fate {
    if e.timestamp < t.seedAt then BeforeSeed
    else if e.timestamp < origin then if e.timestamp < t.lastEvent then Raced else Early
    else if e.timestamp < t.since || e.timestamp < t.lastEvent then Late
    else Applied
  }

  function FateOf(s: Timeline, e: Event): Fate {
    if Ignored(e) then Invalid
    else if Expired(s, e) then Late
    else Judge(s.grid.origin, TrackOf(s, e), e)
  }

  /** A track once an event has been judged. */
  function TrackAfter(origin: int, t: Track, e: Event): Track {
    match Judge(origin, t, e)
    case Early => Transition(origin, t, e, false).(lastEvent := e.timestamp, since := origin)
    case Applied => Transition(origin, t, e, true).(lastEvent := e.timestamp, since := e.timestamp)
    case _ => t
  }

  /** Windows after noticing that a TID changed hands. */
  function AfterHandover(s: Timeline, e: Event): map<int, Window>
    requires s.grid.Valid()
  {
    if e.tid in s.tracks && IdentityChanged(s.tracks[e.tid], e)
    then RecordRace(s.grid, s.windows, s.nextWindow, e.timestamp) else s.windows
  }

  /** Windows once an event has met its track. */
  function WindowsAfter(s: Timeline, t: Track, e: Event): map<int, Window>
    requires s.grid.Valid()
  {
    match Judge(s.grid.origin, t, e)
    case Raced => RecordRace(s.grid, s.windows, s.nextWindow, s.grid.origin)
    case Late => RecordLate(s.windows, s.nextWindow)
    case Applied => RecordEvent(s.grid, Book(s.grid, s.windows, s.nextWindow, t, t.since, e.timestamp), t, e)
    case _ => s.windows
  }

  /** The second half of `Observe`: the event meets its track. */
  function Settle(s: Timeline, t: Track, e: Event): Timeline
    requires s.grid.Valid()
  {
    s.(tracks := s.tracks[e.tid := TrackAfter(s.grid.origin, t, e)], windows := WindowsAfter(s, t, e))
  }

  function Observe(s: Timeline, e: Event): Timeline
    requires s.grid.Valid()
  {
    if Ignored(e) then s
    else if Expired(s, e) then s.(windows := RecordLate(s.windows, s.nextWindow))
    else Settle(s.(windows := AfterHandover(s, e)), TrackOf(s, e), e)
  }

  // ---------------------------------------------------------------- Advance

  predicate Accruing(t: Track, watermark: int) { t.alive && t.since < watermark }

  /** Books one live track up to the watermark. */
  function Cut(s: Timeline, tid: int, watermark: int): Timeline
    requires s.grid.Valid() && tid in s.tracks
  {
    var t := s.tracks[tid];
    if !Accruing(t, watermark) then s
    else s.(windows := Book(s.grid, s.windows, s.nextWindow, t, t.since, watermark),
            tracks := s.tracks[tid := t.(since := watermark)])
  }

  /** Books the tracks in `tids`, in some order. */
  ghost function CutAll(s: Timeline, tids: set<int>, watermark: int): (r: Timeline)
    requires s.grid.Valid() && tids <= s.tracks.Keys
    ensures r.grid == s.grid && r.tracks.Keys == s.tracks.Keys && r.nextWindow == s.nextWindow
    ensures r.watermark == s.watermark && r.advanced == s.advanced && r.calibration == s.calibration
    decreases |tids|
  {
    if tids == {} then s
    else
      var tid := Any(tids);
      CutAll(Cut(s, tid, watermark), tids - {tid}, watermark)
  }

  /** The report of a window that closes now. */
  ghost function ReportOf(s: Timeline, w: nat, lost: nat): Report {
    var win := WindowAt(s.windows, w);
    var q := win.quality.events;
    Report(s.grid.Start(w), s.grid.End(w), Rows(NanosecondsFirst, win.stats),
           win.quality.(samplingMethod := METHOD,
                        missed := 0 < lost || 0 < q.late || 0 < q.incomplete || 0 < q.races,
                        events := q.(timeline := true, lost := lost, calibration := s.calibration)))
  }

  /** First window that stays open at a watermark. */
  function NextOpen(s: Timeline, watermark: int): (n: nat)
    requires s.grid.Valid()
    ensures s.nextWindow <= n
  {
    Max(s.nextWindow, s.grid.Index(watermark))
  }

  /** Windows not yet emitted below `n` are dropped from the pending map. */
  function Pending(ws: map<int, Window>, next: nat, n: nat): map<int, Window> {
    map w | w in ws && !(next <= w < n) :: ws[w]
  }

  /** The reports of the windows from the next one up to `n`. */
  ghost function Reports(s: Timeline, n: nat, lost: nat): (r: seq<Report>)
    requires s.nextWindow <= n
    ensures |r| == n - s.nextWindow
  {
    seq(n - s.nextWindow, i requires 0 <= i => ReportOf(s, s.nextWindow + i, lost))
  }

  ghost function Close(s: Timeline, watermark: int, lost: nat): (r: (Timeline, seq<Report>))
    requires s.grid.Valid()
  {
    var n := NextOpen(s, watermark);
    (s.(nextWindow := n, windows := Pending(s.windows, s.nextWindow, n)), Reports(s, n, lost))
  }

  function Mark(s: Timeline, watermark: int): Timeline {
    s.(watermark := Max(s.watermark, watermark), advanced := true)
  }

  ghost function Advance(s: Timeline, watermark: int, lost: nat): (r: (Timeline, seq<Report>))
    requires s.grid.Valid()
  {
    if watermark < s.grid.origin then (s, [])
    else Close(CutAll(Mark(s, watermark), s.tracks.Keys, watermark), watermark, lost)
  }

  // ------------------------------------------------- order of the track map

  lemma PostsCommute(g: Grid, w: int, win: Window, t: Track, x: int, u: Track, y: int)
    requires t.id != u.id
    ensures Post(g, w, Post(g, w, win, t, x), u, y) == Post(g, w, Post(g, w, win, u, y), t, x)
  {
    var p, q := Accrue(RowFor(g, w, win, t), t.state, x), Accrue(RowFor(g, w, win, u), u.state, y);
    assert win.stats[t.id := p][u.id := q] == win.stats[u.id := q][t.id := p];
  }

  /** Two tracks of different threads book in either order. */
  lemma BooksCommute(g: Grid, ws: map<int, Window>, floor: nat, t: Track, a: int, b: int, u: Track, c: int, d: int)
    requires g.Valid() && t.id != u.id
    ensures Book(g, Book(g, ws, floor, t, a, b), floor, u, c, d) == Book(g, Book(g, ws, floor, u, c, d), floor, t, a, b)
  {
    var first, second := Book(g, ws, floor, t, a, b), Book(g, ws, floor, u, c, d);
    var l, r := Book(g, first, floor, u, c, d), Book(g, second, floor, t, a, b);
    forall w ensures (w in l <==> w in r) && WindowAt(l, w) == WindowAt(r, w) {
      PostsCommute(g, w, WindowAt(ws, w), t, g.Overlap(a, b, w), u, g.Overlap(c, d, w));
      BookAt(g, ws, floor, t, a, b, w);
      BookAt(g, ws, floor, u, c, d, w);
      BookAt(g, first, floor, u, c, d, w);
      BookAt(g, second, floor, t, a, b, w);
    }
    SameWindows(l, r, NEW_WINDOW);
  }

  predicate Reaches(g: Grid, floor: nat, lo: int, hi: int, w: int) { floor <= w && 0 < g.Overlap(lo, hi, w) }

  /** Booking, one window at a time: what is booked is exactly the overlap. */
  lemma BookAt(g: Grid, ws: map<int, Window>, floor: nat, t: Track, lo: int, hi: int, w: int)
    requires g.Valid()
    ensures w in Book(g, ws, floor, t, lo, hi) <==> w in ws || Reaches(g, floor, lo, hi, w)
    ensures WindowAt(Book(g, ws, floor, t, lo, hi), w) ==
            if Reaches(g, floor, lo, hi, w) then Post(g, w, WindowAt(ws, w), t, g.Overlap(lo, hi, w))
            else WindowAt(ws, w)
  {
  }

  lemma BothCut(s: Timeline, x: int, y: int, watermark: int)
    requires s.grid.Valid() && x in s.tracks && y in s.tracks && x != y
    requires Accruing(s.tracks[x], watermark) && Accruing(s.tracks[y], watermark)
    ensures var t, u, q := s.tracks[x], s.tracks[y], Cut(Cut(s, x, watermark), y, watermark);
            && q == s.(windows := q.windows,
                       tracks := s.tracks[x := t.(since := watermark)][y := u.(since := watermark)])
            && q.windows == Book(s.grid, Book(s.grid, s.windows, s.nextWindow, t, t.since, watermark), s.nextWindow,
                                 u, u.since, watermark)
  {
  }

  lemma CutsCommute(s: Timeline, x: int, y: int, watermark: int)
    requires s.Valid() && x in s.tracks && y in s.tracks && x != y
    ensures Cut(Cut(s, x, watermark), y, watermark) == Cut(Cut(s, y, watermark), x, watermark)
  {
    var t, u := s.tracks[x], s.tracks[y];
    if Accruing(t, watermark) && Accruing(u, watermark) {
      BothCut(s, x, y, watermark);
      BothCut(s, y, x, watermark);
      BooksCommute(s.grid, s.windows, s.nextWindow, t, t.since, watermark, u, u.since, watermark);
      assert s.tracks[x := t.(since := watermark)][y := u.(since := watermark)] ==
             s.tracks[y := u.(since := watermark)][x := t.(since := watermark)];
    }
  }

  /** `Advance` may visit the track map in any order: any track can go first. */
  lemma {:induction false} AnyTrackFirst(s: Timeline, tids: set<int>, tid: int, watermark: int)
    requires s.Valid() && tids <= s.tracks.Keys && tid in tids
    ensures CutAll(s, tids, watermark) == CutAll(Cut(s, tid, watermark), tids - {tid}, watermark)
    decreases |tids|
  {
    var first := Any(tids);
    if first != tid {
      var a, b := Cut(s, first, watermark), Cut(s, tid, watermark);
      CutKeeps(s, first, watermark);
      CutKeeps(s, tid, watermark);
      AnyTrackFirst(a, tids - {first}, tid, watermark);
      AnyTrackFirst(b, tids - {tid}, first, watermark);
      CutsCommute(s, first, tid, watermark);
      assert tids - {first} - {tid} == tids - {tid} - {first};
    }
  }

  lemma CutKeeps(s: Timeline, tid: int, watermark: int)
    requires s.Valid() && tid in s.tracks
    ensures Cut(s, tid, watermark).Valid() && Cut(s, tid, watermark).tracks.Keys == s.tracks.Keys
  {
  }

  lemma TrackOfTid(s: Timeline, e: Event)
    requires s.Valid()
    ensures TrackAfter(s.grid.origin, TrackOf(s, e), e).id.tid == e.tid
  {
  }

  lemma SettleFrame(s: Timeline, t: Track, e: Event)
    requires s.grid.Valid()
    ensures var q := Settle(s, t, e);
            && q.(tracks := s.tracks, windows := s.windows) == s
            && q.tracks == s.tracks[e.tid := TrackAfter(s.grid.origin, t, e)]
  {
  }

  /** `Observe` touches tracks and windows only. */
  lemma ObserveFrame(s: Timeline, e: Event)
    requires s.Valid()
    ensures var q := Observe(s, e);
            && q.Valid() && q.(tracks := s.tracks, windows := s.windows) == s
            && q.tracks == if Ignored(e) || Expired(s, e) then s.tracks
                           else s.tracks[e.tid := TrackAfter(s.grid.origin, TrackOf(s, e), e)]
  {
    if !Ignored(e) && !Expired(s, e) {
      TrackOfTid(s, e);
      SettleFrame(s.(windows := AfterHandover(s, e)), TrackOf(s, e), e);
    }
  }

  /** An applied event closes its track's segment and is counted. */
  lemma AppliedWindows(s: Timeline, e: Event)
    requires s.grid.Valid() && FateOf(s, e).Applied?
    ensures var t := TrackOf(s, e);
            Observe(s, e).windows ==
            RecordEvent(s.grid, Book(s.grid, AfterHandover(s, e), s.nextWindow, t, t.since, e.timestamp), t, e)
  {
  }

  lemma {:induction false} CutAllKeepsValid(t: Timeline, tids: set<int>, mark: int)
    requires t.Valid() && tids <= t.tracks.Keys
    ensures CutAll(t, tids, mark).Valid()
    decreases |tids|
  {
    if tids != {} {
      var tid := Any(tids);
      CutKeeps(t, tid, mark);
      CutAllKeepsValid(Cut(t, tid, mark), tids - {tid}, mark);
    }
  }

  lemma AdvanceRaisesWatermark(t: Timeline, boundary: int, lost: nat)
    requires t.Valid()
    ensures var q := Advance(t, boundary, lost).0; q.Valid() && t.watermark <= q.watermark
    ensures var q := Advance(t, boundary, lost).0;
            if boundary < t.grid.origin then q == t else q.advanced && q.watermark == Max(t.watermark, boundary)
  {
    if t.grid.origin <= boundary {
      CutAllKeepsValid(Mark(t, boundary), t.tracks.Keys, boundary);
    }
  }
}
