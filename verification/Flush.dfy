/** The flush protocol between the reader goroutine and the collector loop, as steps
    (internal/backend/ebpf/stream_linux.go, internal/collector/collector.go). */
module Flush {
  import opened EventTimeline

  const EVENTS_CAPACITY: nat := 4096
  const FLUSHED_CAPACITY: nat := 1

  /** Where `readEvents` is. */
  datatype Reader = Reading | SendingEvent(e: Event) | SendingFlushed

  /** Where the collector is: its select loop, the loop of `flushSchedulerEvents`, `drainSchedulerEvents`,
      or back from the flush and about to call `Advance`. */
  datatype Stage = Looping | Flushing | Draining | Returned

  /** A flush that returned: the ring's length when it was asked for, and the watermark in force. */
  datatype Round = Round(mark: nat, watermark: int)

  /** `ring` holds every record ever written; `forces[i]` is the watermark in force when record `i` was
      observed and `expired[i]` whether it was late for that watermark; `rounds` lists the completed flushes,
      the last of which may not have advanced yet. */
  datatype System = System(ring: seq<Event>, read: nat, marker: int, reader: Reader, events: seq<Event>, flushed: nat,
                           stage: Stage, acc: Timeline, mark: nat, observed: seq<Event>, forces: seq<int>,
                           expired: seq<bool>, rounds: seq<Round>)

  const NO_MARKER: int := -1

  datatype Action =
    | Emit(e: Event)          // the kernel writes a record
    | Read                    // the reader takes the next record
    | SeeFlush                // the ring library reports the flush, once everything before it was read
    | SendEvent | SendFlushed // the reader's channel sends
    | Receive                 // the collector takes an event from the channel
    | CallFlush | TakeFlushed
    | StopDraining            // the channel was found empty: the flush returns
    | Advance(boundary: int, lost: nat)

  predicate Enabled(s: System, a: Action) {
    match a
    case Emit(_) => true
    case Read => s.reader.Reading? && s.read < |s.ring|
    case SeeFlush => s.reader.Reading? && s.marker != NO_MARKER && s.marker <= s.read
    case SendEvent => s.reader.SendingEvent? && |s.events| < EVENTS_CAPACITY
    case SendFlushed => s.reader.SendingFlushed? && s.flushed < FLUSHED_CAPACITY
    case Receive => s.events != [] && !s.stage.Returned?
    case CallFlush => s.stage.Looping?
    case TakeFlushed => s.stage.Flushing? && 0 < s.flushed
    case StopDraining => s.stage.Draining? && s.events == []
    case Advance(_, _) => s.stage.Returned?
  }

  ghost function Next(s: System, a: Action): System
    requires Enabled(s, a) && s.acc.Valid()
  {
    match a
    case Emit(e) => s.(ring := s.ring + [e])
    case Read => s.(reader := SendingEvent(s.ring[s.read]), read := s.read + 1)
    case SeeFlush => s.(reader := SendingFlushed, marker := NO_MARKER)
    case SendEvent => s.(events := s.events + [s.reader.e], reader := Reading)
    case SendFlushed => s.(flushed := s.flushed + 1, reader := Reading)
    case Receive =>
      s.(events := s.events[1..], acc := Observe(s.acc, s.events[0]),
         observed := s.observed + [s.events[0]], forces := s.forces + [s.acc.watermark],
         expired := s.expired + [Expired(s.acc, s.events[0])])
    case CallFlush => s.(stage := Flushing, marker := |s.ring|, mark := |s.ring|)
    case TakeFlushed => s.(flushed := s.flushed - 1, stage := Draining)
    case StopDraining => s.(stage := Returned, rounds := s.rounds + [Round(s.mark, s.acc.watermark)])
    case Advance(boundary, lost) => s.(stage := Looping, acc := EventTimeline.Advance(s.acc, boundary, lost).0)
  }

  predicate Initial(s: System) {
    s.ring == [] && s.read == 0 && s.marker == NO_MARKER && s.reader.Reading? && s.events == [] && s.flushed == 0
    && s.stage.Looping? && s.mark == 0 && s.observed == [] && s.forces == [] && s.expired == [] && s.rounds == []
  }

  // ---------------------------------------------------------------- invariant

  /** The record the reader holds. */
  function InHand(s: System): seq<Event> { if s.reader.SendingEvent? then [s.reader.e] else [] }

  /** Flush requests and acknowledgements on their way. */
  function Tokens(s: System): nat {
    (if s.marker != NO_MARKER then 1 else 0) + (if s.reader.SendingFlushed? then 1 else 0) + s.flushed
  }

  /** Everything written before the marker has left the ring for the channel. */
  predicate Delivered(s: System) { s.mark <= |s.observed| + |s.events| }

  /** No record before a completed flush saw a watermark set after it. */
  ghost predicate RoundOk(round: Round, forces: seq<int>) {
    round.mark <= |forces| && forall i :: 0 <= i < round.mark ==> forces[i] <= round.watermark
  }

  ghost predicate InTime(rounds: seq<Round>, forces: seq<int>) {
    forall k :: 0 <= k < |rounds| ==> RoundOk(rounds[k], forces)
  }

  /** Late for the watermark means older than it. */
  predicate ExpiredAreOlder(observed: seq<Event>, forces: seq<int>, expired: seq<bool>) {
    && |expired| == |observed| == |forces|
    && forall i :: 0 <= i < |expired| && expired[i] ==> observed[i].timestamp < forces[i]
  }

  ghost predicate Inv(s: System) {
    && s.acc.Valid()
    && s.read <= |s.ring| && s.observed + s.events + InHand(s) == s.ring[..s.read]
    && ExpiredAreOlder(s.observed, s.forces, s.expired)
    && (forall i :: 0 <= i < |s.forces| ==> s.forces[i] <= s.acc.watermark)
    && Tokens(s) == (if s.stage.Flushing? then 1 else 0)
    && (s.marker != NO_MARKER ==> s.marker == s.mark) && s.mark <= |s.ring|
    && (s.stage.Flushing? && s.marker == NO_MARKER ==> Delivered(s))
    && (s.stage.Draining? ==> Delivered(s))
    && (s.stage.Returned? ==> s.mark <= |s.observed| && s.rounds != []
                              && s.rounds[|s.rounds| - 1] == Round(s.mark, s.acc.watermark))
    && InTime(s.rounds, s.forces)
  }

  lemma ReceiveKeeps(s: System)
    requires Inv(s) && Enabled(s, Receive)
    ensures Inv(Next(s, Receive))
  {
    var q := Next(s, Receive);
    ObserveFrame(s.acc, s.events[0]);
    assert s.observed + s.events == q.observed + q.events;
    assert q.observed + q.events + InHand(q) == s.observed + s.events + InHand(s);
    forall k | 0 <= k < |q.rounds| ensures RoundOk(q.rounds[k], q.forces) {
      assert RoundOk(s.rounds[k], s.forces);
    }
  }

  lemma StopDrainingKeeps(s: System)
    requires Inv(s) && Enabled(s, StopDraining)
    ensures Inv(Next(s, StopDraining))
  {
    var q := Next(s, StopDraining);
    forall k | 0 <= k < |q.rounds| ensures RoundOk(q.rounds[k], q.forces) {
      if k < |s.rounds| { assert RoundOk(s.rounds[k], s.forces); }
    }
  }

  lemma ReaderKeeps(s: System, a: Action)
    requires Inv(s) && Enabled(s, a) && (a.Emit? || a.Read? || a.SeeFlush? || a.SendEvent? || a.SendFlushed?)
    ensures Inv(Next(s, a))
  {
    var q := Next(s, a);
    match a {
      case Emit(e) => assert q.ring[..q.read] == s.ring[..s.read];
      case Read => assert s.ring[..s.read + 1] == s.ring[..s.read] + [s.ring[s.read]];
      case SeeFlush => assert |s.observed + s.events + InHand(s)| == s.read;
      case SendEvent => assert q.observed + q.events + InHand(q) == s.observed + s.events + InHand(s);
      case SendFlushed =>
    }
  }

  lemma CollectorKeeps(s: System, a: Action)
    requires Inv(s) && Enabled(s, a) && (a.CallFlush? || a.TakeFlushed? || a.Advance?)
    ensures Inv(Next(s, a))
  {
    if a.Advance? { AdvanceRaisesWatermark(s.acc, a.boundary, a.lost); }
    var q := Next(s, a);
  }

  lemma NextKeeps(s: System, a: Action)
    requires Inv(s) && Enabled(s, a)
    ensures Inv(Next(s, a))
  {
    match a {
      case Receive => ReceiveKeeps(s);
      case StopDraining => StopDrainingKeeps(s);
      case CallFlush => CollectorKeeps(s, a);
      case TakeFlushed => CollectorKeeps(s, a);
      case Advance(_, _) => CollectorKeeps(s, a);
      case _ => ReaderKeeps(s, a);
    }
  }

  // ---------------------------------------------------------------- schedules

  /** The systems that a schedule of the reader, the collector and the kernel goes through. */
  ghost predicate Run(states: seq<System>, schedule: seq<Action>) {
    && |states| == |schedule| + 1
    && Initial(states[0]) && states[0].acc.Valid()
    && forall i :: 0 <= i < |schedule| ==> Step(states[i], schedule[i], states[i + 1])
  }

  ghost predicate Step(s: System, a: Action, q: System) {
    s.acc.Valid() && Enabled(s, a) && q == Next(s, a)
  }

  lemma {:induction false} AlwaysInv(states: seq<System>, schedule: seq<Action>, n: nat)
    requires Run(states, schedule) && n < |states|
    ensures Inv(states[n])
  {
    if n == 0 {
      assert states[0].ring[..0] == [];
    } else {
      AlwaysInv(states, schedule, n - 1);
      assert Step(states[n - 1], schedule[n - 1], states[n]);
      NextKeeps(states[n - 1], schedule[n - 1]);
    }
  }

  /** When a flush returns, the collector has observed a prefix of the ring, without gaps, duplicates or
      reordering, that contains every record written before the flush was asked for. */
  lemma FlushDeliversAll(states: seq<System>, schedule: seq<Action>, n: nat)
    requires Run(states, schedule) && n < |states| && states[n].stage.Returned?
    ensures var s := states[n]; |s.observed| <= |s.ring| && s.observed == s.ring[..|s.observed|]
    ensures states[n].mark <= |states[n].observed|
  {
    AlwaysInv(states, schedule, n);
    var s := states[n];
    var taken := s.observed + s.events + InHand(s);
    assert s.observed == taken[..|s.observed|];
  }

  /** At every later time: a record written before a flush was observed under a watermark no later than
      the one in force when that flush returned. If the watermark made it late, its timestamp precedes that
      one: an earlier `Advance` made it late, never the one that follows the flush. */
  lemma NeverLateByItsOwnFlush(states: seq<System>, schedule: seq<Action>, n: nat, k: nat, i: nat)
    requires Run(states, schedule) && n < |states| && k < |states[n].rounds| && i < states[n].rounds[k].mark
    ensures var s := states[n];
      && i < |s.observed| && |s.observed| == |s.forces| && i < |s.ring|
      && s.observed[i] == s.ring[i] && s.forces[i] <= s.rounds[k].watermark
      && |s.expired| == |s.observed| && (s.expired[i] ==> s.ring[i].timestamp < s.rounds[k].watermark)
  {
    AlwaysInv(states, schedule, n);
    var s := states[n];
    assert RoundOk(s.rounds[k], s.forces);
    var taken := s.observed + s.events + InHand(s);
    assert taken[i] == s.observed[i] && |taken| == s.read && taken[i] == s.ring[i];
  }

  /** A waiting collector is never stuck: some step of it or of the reader is possible, and the reader's
      acknowledgement never finds its channel full. */
  lemma FlushNeverDeadlocks(states: seq<System>, schedule: seq<Action>, n: nat)
    requires Run(states, schedule) && n < |states|
    ensures var s := states[n];
      && (s.stage.Flushing? ==>
            Enabled(s, Receive) || Enabled(s, TakeFlushed) || Enabled(s, Read) || Enabled(s, SeeFlush)
            || Enabled(s, SendEvent) || Enabled(s, SendFlushed))
      && (s.reader.SendingFlushed? ==> Enabled(s, SendFlushed))
  {
    AlwaysInv(states, schedule, n);
  }
}
