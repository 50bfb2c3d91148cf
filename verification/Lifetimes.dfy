/** The reference a track is compared with: replaying the events a lifetime accepted,
    and counting nanosecond by nanosecond how long it stayed in each state. */
module Lifetimes {
  import opened Windows
  import opened EventTimeline

  /** An accepted event. */
  datatype Deed = Deed(at: int, kind: Kind, state: SchedState) {
    predicate IsDeath() { kind.SwitchOut? && state.Dead? }
  }

  datatype Phase = Phase(state: SchedState, alive: bool)

  function After(p: Phase, d: Deed): Phase {
    match d.kind
    case Wakeup => if p.state.OnCPU? then p else p.(state := Runnable)
    case SwitchIn => Phase(OnCPU, true)
    case SwitchOut => Phase(d.state, p.alive && !d.IsDeath())
  }

  /** One object in the track map, from its creation on. */
  datatype Life = Life(born: int, seed: SchedState, deeds: seq<Deed>, track: Track) {

    /** State and liveness at an instant: the events up to it, replayed. */
    function At(t: int): Phase { Replay(seed, deeds, t) }

    function Final(): Phase { Phase(track.state, track.alive) }

    /** Nanoseconds of `[lo, hi)` the living thread spent in `s`. */
    function Measured(lo: int, hi: int, s: SchedState): int { Measure(seed, deeds, lo, hi, s) }

    predicate NothingAfterDeath() { forall i :: 0 <= i < |deeds| - 1 ==> !deeds[i].IsDeath() }

    /** What every reachable lifetime satisfies. */
    ghost predicate Ok(origin: int) {
      && origin <= born <= track.since
      && (forall i :: 0 <= i < |deeds| ==> deeds[i].at <= track.since && deeds[i].at <= track.lastEvent)
      && (forall i, j :: 0 <= i < j < |deeds| ==> deeds[i].at <= deeds[j].at)
      && At(track.since) == Final()
      && (!track.alive ==> deeds != [] && deeds[|deeds| - 1].at == track.lastEvent
                           && track.since <= Max(origin, track.lastEvent))
      && (track.wakeupAt != 0 ==> track.state == Runnable && origin <= track.wakeupAt <= track.lastEvent
                                  && track.wakeupAt <= track.since)
      && (!track.alive && NothingAfterDeath() ==> track.wakeupAt == 0 && deeds[|deeds| - 1].IsDeath())
    }
  }

  function Replay(seed: SchedState, deeds: seq<Deed>, t: int): Phase {
    if deeds == [] then Phase(seed, true)
    else
      var rest, d := deeds[..|deeds| - 1], deeds[|deeds| - 1];
      if d.at <= t then After(Replay(seed, rest, t), d) else Replay(seed, rest, t)
  }

  function Measure(seed: SchedState, deeds: seq<Deed>, lo: int, hi: int, s: SchedState): (n: nat)
    decreases hi - lo
  {
    if hi <= lo then 0
    else Measure(seed, deeds, lo, hi - 1, s) + if Replay(seed, deeds, hi - 1) == Phase(s, true) then 1 else 0
  }

  lemma {:induction false} Split(seed: SchedState, deeds: seq<Deed>, a: int, b: int, c: int, s: SchedState)
    requires a <= b <= c
    ensures Measure(seed, deeds, a, c, s) == Measure(seed, deeds, a, b, s) + Measure(seed, deeds, b, c, s)
    decreases c - b
  {
    if b < c { Split(seed, deeds, a, b, c - 1, s); }
  }

  /** Once all deeds are in the past the phase no longer changes. */
  lemma {:induction false} Settled(seed: SchedState, deeds: seq<Deed>, t: int, u: int)
    requires forall i :: 0 <= i < |deeds| ==> deeds[i].at <= t
    requires t <= u
    ensures Replay(seed, deeds, u) == Replay(seed, deeds, t)
  {
    if deeds != [] { Settled(seed, deeds[..|deeds| - 1], t, u); }
  }

  lemma {:induction false} Steady(seed: SchedState, deeds: seq<Deed>, lo: int, hi: int, s: SchedState)
    requires forall i :: 0 <= i < |deeds| ==> deeds[i].at <= lo
    ensures Measure(seed, deeds, lo, hi, s) == if Replay(seed, deeds, lo) == Phase(s, true) then Max(0, hi - lo) else 0
    decreases hi - lo
  {
    if lo < hi {
      Steady(seed, deeds, lo, hi - 1, s);
      Settled(seed, deeds, lo, hi - 1);
    }
  }

  /** A later event leaves the past as it was. */
  lemma {:induction false} PastKept(seed: SchedState, deeds: seq<Deed>, d: Deed, lo: int, hi: int, s: SchedState)
    requires hi <= d.at
    ensures Measure(seed, deeds + [d], lo, hi, s) == Measure(seed, deeds, lo, hi, s)
    decreases hi - lo
  {
    if lo < hi {
      PastKept(seed, deeds, d, lo, hi - 1, s);
      assert (deeds + [d])[..|deeds|] == deeds;
    }
  }

  /** Carrying a lifetime forward from `since` to `hi` adds its present state, window by window. */
  lemma Extend(g: Grid, l: Life, hi: int, w: int, s: SchedState)
    requires g.Valid() && l.Ok(g.origin) && l.track.since <= hi
    ensures l.Measured(Max(l.born, g.Start(w)), Min(hi, g.End(w)), s) ==
            l.Measured(Max(l.born, g.Start(w)), Min(l.track.since, g.End(w)), s)
            + if l.Final() == Phase(s, true) then g.Overlap(l.track.since, hi, w) else 0
  {
    var a, b, c := Max(l.born, g.Start(w)), Min(l.track.since, g.End(w)), Min(hi, g.End(w));
    if l.track.since < g.End(w) {
      var from := Max(a, b);
      Settled(l.seed, l.deeds, l.track.since, from);
      Steady(l.seed, l.deeds, from, c, s);
      if a <= b {
        Split(l.seed, l.deeds, a, b, c, s);
      }
    }
  }

  /** The phase after one more event. */
  lemma Next(l: Life, d: Deed)
    requires forall i :: 0 <= i < |l.deeds| ==> l.deeds[i].at <= l.track.since
    requires l.At(l.track.since) == l.Final()
    requires l.track.since <= d.at
    ensures Replay(l.seed, l.deeds + [d], d.at) == After(l.Final(), d)
  {
    Settled(l.seed, l.deeds, l.track.since, d.at);
    assert (l.deeds + [d])[..|l.deeds|] == l.deeds;
  }

  /** Without a death on record the thread is alive. */
  lemma {:induction false} AliveBeforeDeath(seed: SchedState, deeds: seq<Deed>, t: int)
    requires forall i :: 0 <= i < |deeds| ==> !deeds[i].IsDeath()
    ensures Replay(seed, deeds, t).alive
  {
    if deeds != [] { AliveBeforeDeath(seed, deeds[..|deeds| - 1], t); }
  }

  /** Up to `since`, a lifetime with nothing after its death is alive throughout. */
  lemma AliveSoFar(origin: int, l: Life, t: int)
    requires l.Ok(origin) && l.NothingAfterDeath() && origin <= t < l.track.since
    ensures l.At(t).alive
  {
    if l.deeds != [] {
      var n := |l.deeds| - 1;
      var rest := l.deeds[..n];
      AliveBeforeDeath(l.seed, rest, t);
      if l.deeds[n].IsDeath() && l.deeds[n].at <= t {
        AliveBeforeDeath(l.seed, rest, l.track.since);
        assert false;
      }
    }
  }

  /** Time in all states together. */
  function MeasuredInAll(l: Life, lo: int, hi: int): int { OverSchedStates(s => l.Measured(lo, hi, s)) }

  lemma {:induction false} NothingUncovered(origin: int, l: Life, lo: int, hi: int)
    requires l.Ok(origin) && l.NothingAfterDeath() && origin <= lo <= hi <= l.track.since
    ensures MeasuredInAll(l, lo, hi) == hi - lo
    decreases hi - lo
  {
    if lo < hi {
      NothingUncovered(origin, l, lo, hi - 1);
      AliveSoFar(origin, l, hi - 1);
      forall s ensures l.Measured(lo, hi, s) == l.Measured(lo, hi - 1, s) + if l.At(hi - 1).state == s then 1 else 0 {
      }
    }
  }
}
