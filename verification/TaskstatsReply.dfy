/** Finding one thread's statistics in a TASKSTATS answer
    (`decodeTaskstatsResponse`, internal/backend/taskstats/netlink_linux.go). */
module TaskstatsReply {
  import opened Machine
  import opened Wrappers
  import opened Netlink

  const PID_TYPE: uint16 := 1
  const STATS_TYPE: uint16 := 3
  const AGGREGATE_TYPE: uint16 := 4

  /** The thread an aggregate is about: its last long enough PID attribute, or zero. */
  function PidOf(e: Endian, children: seq<Attribute>): uint32 {
    if children == [] then 0
    else
      var last := children[|children| - 1];
      if last.typeID == PID_TYPE && 4 <= |last.data| then Get32(e, last.data[..4])
      else PidOf(e, children[..|children| - 1])
  }

  function StatsOf(children: seq<Attribute>): Option<seq<byte>> {
    if children == [] then None
    else
      var last := children[|children| - 1];
      if last.typeID == STATS_TYPE then Some(last.data) else StatsOf(children[..|children| - 1])
  }

  /** What an attribute says about a thread; `Ok(None)` when it is about something else. */
  function Inspect(e: Endian, a: Attribute, tid: uint32): Result<Option<seq<byte>>> {
    if a.typeID != AGGREGATE_TYPE then Ok(None)
    else
      var nested := ParseAttributes(e, a.data);
      if nested.Err? then Err(nested.error)
      else Ok(if PidOf(e, nested.value) == tid then StatsOf(nested.value) else None)
  }

  function Find(e: Endian, attributes: seq<Attribute>, tid: uint32): Result<seq<byte>> {
    if attributes == [] then Err(NoStats(tid))
    else
      var first := Inspect(e, attributes[0], tid);
      if first.Err? then Err(first.error)
      else if first.value.Some? then Ok(first.value.value)
      else Find(e, attributes[1..], tid)
  }

  /** The statistics payload of `tid`. */
  function Locate(e: Endian, response: seq<byte>, tid: uint32): Result<seq<byte>> {
    var attributes := Requested(e, response);
    if attributes.Err? then Err(attributes.error) else Find(e, attributes.value, tid)
  }

  method InspectAggregate(e: Endian, a: Attribute, tid: uint32) returns (r: Result<Option<seq<byte>>>)
    ensures r == Inspect(e, a, tid)
  {
    if a.typeID != AGGREGATE_TYPE {
      return Ok(None);
    }
    var nested := ParseNetlinkAttributes(e, a.data);
    if nested.Err? {
      return Err(nested.error);
    }
    var children := nested.value;
    var pid: uint32, stats: Option<seq<byte>> := 0, None;
    for i := 0 to |children|
      invariant pid == PidOf(e, children[..i]) && stats == StatsOf(children[..i])
    {
      assert children[..i + 1][..i] == children[..i];
      var child := children[i];
      if child.typeID == PID_TYPE {
        if 4 <= |child.data| {
          pid := Get32(e, child.data[..4]);
        }
      } else if child.typeID == STATS_TYPE {
        stats := Some(child.data);
      }
    }
    assert children[..|children|] == children;
    r := Ok(if pid == tid then stats else None);
  }

  method DecodeTaskstatsResponse(e: Endian, response: seq<byte>, tid: uint32) returns (r: Result<seq<byte>>)
    ensures r == Locate(e, response, tid)
  {
    if |response| < GENL_HEADER {
      return Err(ShortResponse(|response|));
    }
    var parsed := ParseNetlinkAttributes(e, response[GENL_HEADER..]);
    if parsed.Err? {
      return Err(parsed.error);
    }
    var attributes := parsed.value;
    for i := 0 to |attributes|
      invariant Find(e, attributes, tid) == Find(e, attributes[i..], tid)
    {
      var found := InspectAggregate(e, attributes[i], tid);
      assert attributes[i..][0] == attributes[i] && attributes[i..][1..] == attributes[i + 1..];
      if found.Err? {
        return Err(found.error);
      }
      if found.value.Some? {
        return Ok(found.value.value);
      }
    }
    r := Err(NoStats(tid));
  }

  function Children(e: Endian, tid: uint32, stats: seq<byte>): (c: seq<Attribute>)
    ensures |c| == 2
  {
    [Attribute(PID_TYPE, Put32(e, tid)), Attribute(STATS_TYPE, stats)]
  }

  /** The aggregate the kernel sends for a thread. */
  function Aggregate(e: Endian, tid: uint32, stats: seq<byte>): Attribute {
    Attribute(AGGREGATE_TYPE, Encode(e, Children(e, tid, stats)))
  }

  lemma ChildrenRead(e: Endian, tid: uint32, stats: seq<byte>)
    ensures PidOf(e, Children(e, tid, stats)) == tid && StatsOf(Children(e, tid, stats)) == Some(stats)
  {
    var pid := Attribute(PID_TYPE, Put32(e, tid));
    assert Children(e, tid, stats)[..1] == [pid];
    assert Put32(e, tid)[..4] == Put32(e, tid);
    Got32(e, tid);
  }

  lemma Parsed(e: Endian, attributes: seq<Attribute>)
    requires forall a :: a in attributes ==> Encodable(a) && a.typeID < TYPE_LIMIT
    ensures ParseAttributes(e, Encode(e, attributes)) == Ok(attributes)
  {
    assert Encode(e, attributes) + Zeros(0) == Encode(e, attributes);
    AttributesRoundTrip(e, attributes, 0);
  }

  lemma AggregateFound(e: Endian, tid: uint32, stats: seq<byte>)
    requires Encodable(Attribute(STATS_TYPE, stats))
    ensures Inspect(e, Aggregate(e, tid, stats), tid) == Ok(Some(stats))
  {
    ChildrenRead(e, tid, stats);
    Parsed(e, Children(e, tid, stats));
  }

  lemma {:induction false} PassedOver(e: Endian, before: seq<Attribute>, rest: seq<Attribute>, tid: uint32)
    requires forall a :: a in before ==> Inspect(e, a, tid) == Ok(None)
    ensures Find(e, before + rest, tid) == Find(e, rest, tid)
  {
    if before == [] {
      assert before + rest == rest;
    } else {
      assert (before + rest)[1..] == before[1..] + rest;
      PassedOver(e, before[1..], rest, tid);
    }
  }

  /** An answer that holds a thread's aggregate, behind any attributes about other things, yields that
      thread's statistics. */
  lemma ThreadIsFound(e: Endian, genl: seq<byte>, before: seq<Attribute>, tid: uint32, stats: seq<byte>,
                      after: seq<Attribute>)
    requires |genl| == GENL_HEADER && Encodable(Aggregate(e, tid, stats)) && Encodable(Attribute(STATS_TYPE, stats))
    requires forall a :: a in before + after ==> Encodable(a) && a.typeID < TYPE_LIMIT
    requires forall a :: a in before ==> Inspect(e, a, tid) == Ok(None)
    ensures Locate(e, genl + Encode(e, before + [Aggregate(e, tid, stats)] + after), tid) == Ok(stats)
  {
    AnswerParses(e, genl, before + [Aggregate(e, tid, stats)] + after);
    AggregateFound(e, tid, stats);
    FoundBehind(e, before, Aggregate(e, tid, stats), after, tid, stats);
  }

  lemma FoundBehind(e: Endian, before: seq<Attribute>, a: Attribute, after: seq<Attribute>, tid: uint32,
                    stats: seq<byte>)
    requires Inspect(e, a, tid) == Ok(Some(stats))
    requires forall b :: b in before ==> Inspect(e, b, tid) == Ok(None)
    ensures Find(e, before + [a] + after, tid) == Ok(stats)
  {
    assert before + [a] + after == before + ([a] + after);
    PassedOver(e, before, [a] + after, tid);
  }

  lemma AnswerParses(e: Endian, genl: seq<byte>, all: seq<Attribute>)
    requires |genl| == GENL_HEADER && forall a :: a in all ==> Encodable(a) && a.typeID < TYPE_LIMIT
    ensures Requested(e, genl + Encode(e, all)) == Ok(all)
  {
    assert (genl + Encode(e, all))[GENL_HEADER..] == Encode(e, all);
    Parsed(e, all);
  }

  /** Statistics are never another thread's: they come from an aggregate that names this one. */
  lemma {:induction false} FoundNamesThread(e: Endian, attributes: seq<Attribute>, tid: uint32) returns (a: Attribute)
    requires Find(e, attributes, tid).Ok?
    ensures a in attributes && Inspect(e, a, tid) == Ok(Some(Find(e, attributes, tid).value))
  {
    a := attributes[0];
    if Inspect(e, a, tid).value.None? {
      a := FoundNamesThread(e, attributes[1..], tid);
    }
  }

  lemma {:induction false} PidIsNamed(e: Endian, children: seq<Attribute>) returns (c: Attribute)
    requires PidOf(e, children) != 0
    ensures c in children && c.typeID == PID_TYPE && 4 <= |c.data| && Get32(e, c.data[..4]) == PidOf(e, children)
  {
    c := children[|children| - 1];
    if c.typeID != PID_TYPE || |c.data| < 4 {
      c := PidIsNamed(e, children[..|children| - 1]);
    }
  }

  lemma StatsBelongToThread(e: Endian, response: seq<byte>, tid: uint32) returns (a: Attribute, pid: Attribute)
    requires tid != 0 && Locate(e, response, tid).Ok?
    ensures Requested(e, response).Ok? && a in Requested(e, response).value && a.typeID == AGGREGATE_TYPE
    ensures ParseAttributes(e, a.data).Ok? && pid in ParseAttributes(e, a.data).value
    ensures pid.typeID == PID_TYPE && 4 <= |pid.data| && Get32(e, pid.data[..4]) == tid
    ensures StatsOf(ParseAttributes(e, a.data).value) == Some(Locate(e, response, tid).value)
  {
    a := FoundNamesThread(e, Requested(e, response).value, tid);
    pid := PidIsNamed(e, ParseAttributes(e, a.data).value);
  }
}
