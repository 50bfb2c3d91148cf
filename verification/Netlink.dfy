/** Netlink messages as bytes (internal/backend/taskstats/netlink_linux.go); the header layout is that of
    section 2.3.2 of RFC 3549. */
module Netlink {
  import opened Machine

  const HEADER: nat := 16
  const GENL_HEADER: nat := 4
  const ATTRIBUTE_HEADER: nat := 4
  const REQUEST_FLAG: uint16 := 1
  const ERROR_TYPE: uint16 := 2
  const DONE_TYPE: uint16 := 3
  const TYPE_LIMIT: int := 0x4000

  /** The machine's byte order, whichever it is. */
  datatype Endian = Little | Big

  function Put16(e: Endian, v: uint16): (s: seq<byte>)
    ensures |s| == 2
  {
    if e.Little? then [v % 0x100, v / 0x100] else [v / 0x100, v % 0x100]
  }

  function Get16(e: Endian, s: seq<byte>): (v: uint16)
    requires |s| == 2
  {
    var first: int, second: int := s[0], s[1];
    if e.Little? then first + 0x100 * second else second + 0x100 * first
  }

  function Put32(e: Endian, v: uint32): (s: seq<byte>)
    ensures |s| == 4
  {
    var low, high := Put16(e, v % 0x1_0000), Put16(e, v / 0x1_0000);
    if e.Little? then low + high else high + low
  }

  function Get32(e: Endian, s: seq<byte>): (v: uint32)
    requires |s| == 4
  {
    var first: int, second: int := Get16(e, s[..2]), Get16(e, s[2..]);
    if e.Little? then first + 0x1_0000 * second else second + 0x1_0000 * first
  }

  lemma Got16(e: Endian, v: uint16)
    ensures Get16(e, Put16(e, v)) == v
  {
  }

  lemma Got32(e: Endian, v: uint32)
    ensures Get32(e, Put32(e, v)) == v
  {
    var s, hi, lo := Put32(e, v), v / 0x1_0000, v % 0x1_0000;
    assert s[..2] == if e.Little? then Put16(e, lo) else Put16(e, hi);
    assert s[2..] == if e.Little? then Put16(e, hi) else Put16(e, lo);
    Got16(e, lo);
    Got16(e, hi);
  }

  function Align4(n: nat): (r: nat)
    ensures n <= r < n + 4 && r % 4 == 0
  {
    (n + 3) / 4 * 4
  }

  function Zeros(n: nat): (s: seq<byte>)
    ensures |s| == n
  {
    seq(n, _ => 0)
  }

  predicate AllZero(s: seq<byte>) { forall i :: 0 <= i < |s| ==> s[i] == 0 }

  /** What follows an item of `length` bytes and its padding, which the last item may lack. */
  function After(s: seq<byte>, length: nat): seq<byte>
    requires length <= |s|
  {
    if Align4(length) <= |s| then s[Align4(length)..] else []
  }

  // ---------------------------------------------------------------- attributes

  datatype Attribute = Attribute(typeID: uint16, data: seq<byte>)

  datatype Error =
    Truncated | BadLength(length: nat) | ShortError | EndedWithoutData | PositiveCode(code: int) | Errno(n: nat)
                 | ShortResponse(length: nat) | NoStats(tid: int)

  datatype Result<T> = Ok(value: T) | Err(error: Error)

  function Prefix(before: seq<Attribute>, r: Result<seq<Attribute>>): Result<seq<Attribute>> {
    if r.Ok? then Ok(before + r.value) else r
  }

  /** The attribute at the front of a payload. */
  function Front(e: Endian, p: seq<byte>): (r: Result<Attribute>)
    requires ATTRIBUTE_HEADER <= |p|
    ensures r.Ok? ==> ATTRIBUTE_HEADER + |r.value.data| <= |p| && ATTRIBUTE_HEADER + |r.value.data| < 0x1_0000
    ensures r.Ok? ==> r.value.typeID < TYPE_LIMIT
  {
    var length := Get16(e, p[..2]);
    if length < ATTRIBUTE_HEADER || |p| < length then Err(BadLength(length))
    else Ok(Attribute(Get16(e, p[2..4]) % TYPE_LIMIT, p[4..length]))
  }

  function ParseAttributes(e: Endian, p: seq<byte>): Result<seq<Attribute>>
    decreases |p|
  {
    if |p| < ATTRIBUTE_HEADER then
      if AllZero(p) then Ok([]) else Err(Truncated)
    else
      var front := Front(e, p);
      if front.Err? then Err(front.error)
      else Prefix([front.value], ParseAttributes(e, After(p, ATTRIBUTE_HEADER + |front.value.data|)))
  }

  /** One attribute, read in place. */
  method ReadAttribute(e: Endian, payload: seq<byte>, offset: nat) returns (r: Result<Attribute>)
    requires offset + ATTRIBUTE_HEADER <= |payload|
    ensures r == Front(e, payload[offset..])
  {
    ghost var left := payload[offset..];
    assert left[..2] == payload[offset..offset + 2] && left[2..4] == payload[offset + 2..offset + 4];
    var length := Get16(e, payload[offset..offset + 2]);
    if length < ATTRIBUTE_HEADER || offset + length > |payload| {
      return Err(BadLength(length));
    }
    var typeID := Get16(e, payload[offset + 2..offset + 4]) % TYPE_LIMIT;
    assert left[4..length] == payload[offset + ATTRIBUTE_HEADER..offset + length];
    r := Ok(Attribute(typeID, payload[offset + ATTRIBUTE_HEADER..offset + length]));
  }

  /** `parseNetlinkAttributes`, for any bytes. */
  method ParseNetlinkAttributes(e: Endian, payload: seq<byte>) returns (r: Result<seq<Attribute>>)
    ensures r == ParseAttributes(e, payload)
  {
    var attributes: seq<Attribute> := [];
    var offset := 0;
    Begins(e, payload);
    while offset < |payload|
      invariant Resumes(e, payload, attributes, offset)
    {
      if |payload| - offset < ATTRIBUTE_HEADER {
        NoRoom(e, payload, attributes, offset);
        return if AllZero(payload[offset..]) then Ok(attributes) else Err(Truncated);
      }
      var front := ReadAttribute(e, payload, offset);
      if front.Err? {
        BadFront(e, payload, attributes, offset);
        return Err(front.error);
      }
      var next := offset + Align4(ATTRIBUTE_HEADER + |front.value.data|);
      OneMoreAttribute(e, payload, offset, attributes, front.value, next);
      attributes := attributes + [front.value];
      offset := next;
    }
    AllRead(e, payload, attributes, offset);
    r := Ok(attributes);
  }

  /** The bytes from an offset on, if there are any. */
  function From(s: seq<byte>, offset: nat): seq<byte> { if offset <= |s| then s[offset..] else [] }

  /** The result once `before` has been read and `offset` reached. */
  predicate Resumes(e: Endian, payload: seq<byte>, before: seq<Attribute>, offset: nat) {
    ParseAttributes(e, payload) == Prefix(before, ParseAttributes(e, From(payload, offset)))
  }

  lemma Begins(e: Endian, payload: seq<byte>)
    ensures Resumes(e, payload, [], 0)
  {
    assert payload[0..] == payload;
    PrefixNone(ParseAttributes(e, payload));
  }

  lemma NoRoom(e: Endian, payload: seq<byte>, before: seq<Attribute>, offset: nat)
    requires offset <= |payload| < offset + ATTRIBUTE_HEADER && Resumes(e, payload, before, offset)
    ensures ParseAttributes(e, payload) == if AllZero(payload[offset..]) then Ok(before) else Err(Truncated)
  {
    PrefixEnd(before);
  }

  lemma AllRead(e: Endian, payload: seq<byte>, before: seq<Attribute>, offset: nat)
    requires |payload| <= offset && Resumes(e, payload, before, offset)
    ensures ParseAttributes(e, payload) == Ok(before)
  {
    PrefixEnd(before);
  }

  lemma BadFront(e: Endian, payload: seq<byte>, before: seq<Attribute>, offset: nat)
    requires offset + ATTRIBUTE_HEADER <= |payload| && Resumes(e, payload, before, offset)
    requires Front(e, payload[offset..]).Err?
    ensures ParseAttributes(e, payload) == Err(Front(e, payload[offset..]).error)
  {
  }

  /** One turn of the parser's loop. */
  lemma OneMoreAttribute(e: Endian, payload: seq<byte>, offset: nat, before: seq<Attribute>, a: Attribute, next: nat)
    requires offset + ATTRIBUTE_HEADER <= |payload| && Resumes(e, payload, before, offset)
    requires Front(e, payload[offset..]) == Ok(a) && next == offset + Align4(ATTRIBUTE_HEADER + |a.data|)
    ensures Resumes(e, payload, before + [a], next)
  {
    var left, rest := payload[offset..], ParseAttributes(e, From(payload, next));
    assert ParseAttributes(e, left) == Prefix([a], rest) by {
      assert After(left, ATTRIBUTE_HEADER + |a.data|) == From(payload, next);
    }
    PrefixTwice(before, [a], rest);
  }

  lemma PrefixNone(r: Result<seq<Attribute>>)
    ensures Prefix([], r) == r
  {
    if r.Ok? { assert [] + r.value == r.value; }
  }

  predicate Encodable(a: Attribute) { ATTRIBUTE_HEADER + |a.data| < 0x1_0000 }

  /** An attribute's header and data. */
  function Bare(e: Endian, a: Attribute): (s: seq<byte>)
    ensures |s| == ATTRIBUTE_HEADER + |a.data|
  {
    Put16(e, (ATTRIBUTE_HEADER + |a.data|) % 0x1_0000) + Put16(e, a.typeID) + a.data
  }

  function Padded(s: seq<byte>): (r: seq<byte>)
    ensures |r| == Align4(|s|)
  {
    s + Zeros(Align4(|s|) - |s|)
  }

  function Encode(e: Endian, attributes: seq<Attribute>): seq<byte> {
    if attributes == [] then [] else Padded(Bare(e, attributes[0])) + Encode(e, attributes[1..])
  }

  /** What the parser reports for an attribute: the two flag bits of its type are dropped. */
  function Masked(a: Attribute): Attribute { a.(typeID := a.typeID % TYPE_LIMIT) }

  function MaskedAll(attributes: seq<Attribute>): (r: seq<Attribute>) {
    seq(|attributes|, i requires 0 <= i < |attributes| => Masked(attributes[i]))
  }

  lemma FrontOfBare(e: Endian, a: Attribute, tail: seq<byte>)
    requires Encodable(a)
    ensures Front(e, Bare(e, a) + tail) == Ok(Masked(a))
  {
    var p, n := Bare(e, a) + tail, ATTRIBUTE_HEADER + |a.data|;
    assert p[..2] == Put16(e, n);
    assert p[2..4] == Put16(e, a.typeID);
    assert p[4..n] == a.data;
    Got16(e, n);
    Got16(e, a.typeID);
  }

  lemma AfterPadded(s: seq<byte>, tail: seq<byte>)
    ensures After(Padded(s) + tail, |s|) == tail
  {
  }

  lemma ParseOne(e: Endian, a: Attribute, tail: seq<byte>)
    requires Encodable(a)
    ensures ParseAttributes(e, Padded(Bare(e, a)) + tail) == Prefix([Masked(a)], ParseAttributes(e, tail))
  {
    var b, p := Bare(e, a), Padded(Bare(e, a)) + tail;
    assert p == b + (Zeros(Align4(|b|) - |b|) + tail);
    FrontOfBare(e, a, Zeros(Align4(|b|) - |b|) + tail);
    AfterPadded(b, tail);
  }

  /** Parsing what was encoded gives it back, and goes on with whatever follows. */
  lemma {:induction false} ParseThenRest(e: Endian, attributes: seq<Attribute>, tail: seq<byte>)
    requires forall a :: a in attributes ==> Encodable(a)
    ensures ParseAttributes(e, Encode(e, attributes) + tail) == Prefix(MaskedAll(attributes), ParseAttributes(e, tail))
  {
    if attributes == [] {
      assert Encode(e, attributes) + tail == tail && MaskedAll(attributes) == [];
      PrefixNone(ParseAttributes(e, tail));
    } else {
      ParseThenRest(e, attributes[1..], tail);
      ParseFirst(e, attributes[0], attributes[1..], tail);
      assert [attributes[0]] + attributes[1..] == attributes;
    }
  }

  lemma Assoc(x: seq<byte>, y: seq<byte>, z: seq<byte>)
    ensures (x + y) + z == x + (y + z)
  {
  }

  lemma EncodeFirst(e: Endian, a: Attribute, rest: seq<Attribute>, tail: seq<byte>)
    ensures Encode(e, [a] + rest) + tail == Padded(Bare(e, a)) + (Encode(e, rest) + tail)
  {
    assert ([a] + rest)[1..] == rest;
    Assoc(Padded(Bare(e, a)), Encode(e, rest), tail);
  }

  lemma MaskedFirst(a: Attribute, rest: seq<Attribute>)
    ensures MaskedAll([a] + rest) == [Masked(a)] + MaskedAll(rest)
  {
  }

  lemma ParseFirst(e: Endian, a: Attribute, rest: seq<Attribute>, tail: seq<byte>)
    requires Encodable(a)
    requires ParseAttributes(e, Encode(e, rest) + tail) == Prefix(MaskedAll(rest), ParseAttributes(e, tail))
    ensures ParseAttributes(e, Encode(e, [a] + rest) + tail) == Prefix(MaskedAll([a] + rest), ParseAttributes(e, tail))
  {
    EncodeFirst(e, a, rest, tail);
    ParseOne(e, a, Encode(e, rest) + tail);
    MaskedFirst(a, rest);
    PrefixTwice([Masked(a)], MaskedAll(rest), ParseAttributes(e, tail));
  }

  lemma PrefixEnd(before: seq<Attribute>)
    ensures Prefix(before, Ok([])) == Ok(before)
  {
    assert before + [] == before;
  }

  lemma PrefixTwice(a: seq<Attribute>, b: seq<Attribute>, r: Result<seq<Attribute>>)
    ensures Prefix(a, Prefix(b, r)) == Prefix(a + b, r)
  {
    if r.Ok? { assert a + (b + r.value) == a + b + r.value; }
  }

  /** Round trip: any list of encodable attributes with types below 2^14, padded or followed by up to
      three zero bytes, parses back to itself. */
  lemma AttributesRoundTrip(e: Endian, attributes: seq<Attribute>, zeros: nat)
    requires forall a :: a in attributes ==> Encodable(a) && a.typeID < TYPE_LIMIT
    requires zeros < ATTRIBUTE_HEADER
    ensures ParseAttributes(e, Encode(e, attributes) + Zeros(zeros)) == Ok(attributes)
  {
    ParseThenRest(e, attributes, Zeros(zeros));
    ZerosEnd(e, zeros);
    AllMasked(attributes);
    PrefixEnd(attributes);
  }

  lemma ZerosEnd(e: Endian, n: nat)
    requires n < ATTRIBUTE_HEADER
    ensures ParseAttributes(e, Zeros(n)) == Ok([])
  {
  }

  lemma AllMasked(attributes: seq<Attribute>)
    requires forall a :: a in attributes ==> a.typeID < TYPE_LIMIT
    ensures MaskedAll(attributes) == attributes
  {
    forall i | 0 <= i < |attributes| ensures MaskedAll(attributes)[i] == attributes[i] {
      assert attributes[i] in attributes;
    }
    assert MaskedAll(attributes) == attributes;
  }

  /** Whatever the bytes, each reported attribute has a type below 2^14 and an encodable length, and
      lies within the payload. */
  lemma {:induction false} ParsedAreEncodable(e: Endian, p: seq<byte>, a: Attribute)
    requires ParseAttributes(e, p).Ok? && a in ParseAttributes(e, p).value
    ensures Encodable(a) && a.typeID < TYPE_LIMIT && ATTRIBUTE_HEADER + |a.data| <= |p|
    decreases |p|
  {
    var front := Front(e, p);
    var rest := After(p, ATTRIBUTE_HEADER + |front.value.data|);
    if a != front.value { ParsedAreEncodable(e, rest, a); }
  }

  // ---------------------------------------------------------------- messages

  datatype Reply = Payload(data: seq<byte>) | Nothing | Failure(error: Error)

  function Signed32(v: uint32): int { if v < 0x8000_0000 then v else v - 0x1_0000_0000 }

  /** `unix.Errno(-code)`: the negation of the least `int32` wraps, and widens to a 64-bit word. */
  function ErrnoOf(code: int): nat
    requires -0x8000_0000 <= code < 0
  {
    if code == -0x8000_0000 then 0x1_0000_0000_0000_0000 - 0x8000_0000 else -code
  }

  /** The answer in a message of the awaited sequence number. */
  function Answer(e: Endian, typeID: uint16, payload: seq<byte>): Reply {
    if typeID == ERROR_TYPE then
      if |payload| < 4 then Failure(ShortError)
      else
        var code := Signed32(Get32(e, payload[..4]));
        if code == 0 then Nothing else if code < 0 then Failure(Errno(ErrnoOf(code))) else Failure(PositiveCode(code))
    else if typeID == DONE_TYPE then Failure(EndedWithoutData)
    else Payload(payload)
  }

  function ParseResponse(e: Endian, m: seq<byte>, sequence: uint32): Reply
    decreases |m|
  {
    if |m| < HEADER then Nothing
    else
      var length := Get32(e, m[..4]);
      if length < HEADER || |m| < length then Failure(BadLength(length))
      else if Get32(e, m[8..12]) == sequence then Answer(e, Get16(e, m[4..6]), m[HEADER..length])
      else ParseResponse(e, After(m, length), sequence)
  }

  lemma SliceOfRest(s: seq<byte>, offset: nat, i: nat, j: nat)
    requires i <= j && offset + j <= |s|
    ensures s[offset..][i..j] == s[offset + i..offset + j]
  {
  }

  lemma StartOfRest(s: seq<byte>, offset: nat, j: nat)
    requires offset + j <= |s|
    ensures s[offset..][..j] == s[offset..offset + j]
  {
  }

  lemma AfterFrom(s: seq<byte>, offset: nat, length: nat)
    requires offset + length <= |s|
    ensures After(From(s, offset), length) == From(s, offset + Align4(length))
  {
  }

  /** The header of the message at an offset. */
  lemma HeaderAt(message: seq<byte>, offset: nat)
    requires offset + HEADER <= |message|
    ensures var left := From(message, offset);
      && |left| == |message| - offset && left[..4] == message[offset..offset + 4]
      && left[4..6] == message[offset + 4..offset + 6] && left[8..12] == message[offset + 8..offset + 12]
  {
    StartOfRest(message, offset, 4);
    SliceOfRest(message, offset, 4, 6);
    SliceOfRest(message, offset, 8, 12);
  }

  /** The answer of what is left from an offset on. */
  function ReplyFrom(e: Endian, message: seq<byte>, sequence: uint32, offset: nat): Reply {
    ParseResponse(e, From(message, offset), sequence)
  }

  lemma StartsAt(e: Endian, message: seq<byte>, sequence: uint32)
    ensures ReplyFrom(e, message, sequence, 0) == ParseResponse(e, message, sequence)
  {
    assert From(message, 0) == message;
  }

  lemma EndsAt(e: Endian, message: seq<byte>, sequence: uint32, offset: nat)
    requires |message| < offset + HEADER
    ensures ReplyFrom(e, message, sequence, offset) == Nothing
  {
  }

  lemma StopsAt(e: Endian, message: seq<byte>, sequence: uint32, offset: nat, length: uint32)
    requires offset + HEADER <= |message| && length == Get32(e, message[offset..offset + 4])
    requires length < HEADER || |message| - offset < length
    ensures ReplyFrom(e, message, sequence, offset) == Failure(BadLength(length))
  {
    HeaderAt(message, offset);
  }

  lemma AnswersAt(e: Endian, message: seq<byte>, sequence: uint32, offset: nat, length: uint32)
    requires offset + HEADER <= |message| && length == Get32(e, message[offset..offset + 4])
    requires HEADER <= length <= |message| - offset && Get32(e, message[offset + 8..offset + 12]) == sequence
    ensures ReplyFrom(e, message, sequence, offset) ==
            Answer(e, Get16(e, message[offset + 4..offset + 6]), message[offset + HEADER..offset + length])
  {
    HeaderAt(message, offset);
    SliceOfRest(message, offset, HEADER, length);
  }

  lemma SkipsTo(e: Endian, message: seq<byte>, sequence: uint32, offset: nat, length: uint32)
    requires offset + HEADER <= |message| && length == Get32(e, message[offset..offset + 4])
    requires HEADER <= length <= |message| - offset && Get32(e, message[offset + 8..offset + 12]) != sequence
    ensures ReplyFrom(e, message, sequence, offset) == ReplyFrom(e, message, sequence, offset + Align4(length))
  {
    HeaderAt(message, offset);
    AfterFrom(message, offset, length);
  }

  /** `parseNetlinkResponse`, for any bytes. */
  method ParseNetlinkResponse(e: Endian, message: seq<byte>, sequence: uint32) returns (r: Reply)
    ensures r == ParseResponse(e, message, sequence)
  {
    hide ReplyFrom, ParseResponse, Get32, Get16;
    var offset := 0;
    StartsAt(e, message, sequence);
    while offset + HEADER <= |message|
      invariant ReplyFrom(e, message, sequence, offset) == ParseResponse(e, message, sequence)
      decreases |message| - offset
    {
      var length := Get32(e, message[offset..offset + 4]);
      if length < HEADER || offset + length > |message| {
        StopsAt(e, message, sequence, offset, length);
        return Failure(BadLength(length));
      }
      var typeID := Get16(e, message[offset + 4..offset + 6]);
      var messageSequence := Get32(e, message[offset + 8..offset + 12]);
      var payload := message[offset + HEADER..offset + length];
      if messageSequence == sequence {
        AnswersAt(e, message, sequence, offset, length);
        return Answer(e, typeID, payload);
      }
      SkipsTo(e, message, sequence, offset, length);
      offset := offset + Align4(length);
    }
    EndsAt(e, message, sequence, offset);
    r := Nothing;
  }

  datatype Message = Message(typeID: uint16, flags: uint16, sequence: uint32, port: uint32, payload: seq<byte>)

  predicate Complete(m: Message) { HEADER + |m.payload| < 0x1_0000_0000 }

  /** A message's header and payload. */
  function Frame(e: Endian, m: Message): (s: seq<byte>)
    ensures |s| == HEADER + |m.payload|
  {
    Put32(e, (HEADER + |m.payload|) % 0x1_0000_0000) + Put16(e, m.typeID) + Put16(e, m.flags)
    + Put32(e, m.sequence) + Put32(e, m.port) + m.payload
  }

  function Stream(e: Endian, messages: seq<Message>): seq<byte> {
    if messages == [] then [] else Padded(Frame(e, messages[0])) + Stream(e, messages[1..])
  }

  lemma Slices(a: seq<byte>, b: seq<byte>, c: seq<byte>, d: seq<byte>, f: seq<byte>, payload: seq<byte>,
               tail: seq<byte>)
    requires |a| == |d| == |f| == 4 && |b| == |c| == 2
    ensures var s := a + b + c + d + f + payload + tail;
            s[..4] == a && s[4..6] == b && s[8..12] == d && s[HEADER..HEADER + |payload|] == payload
  {
  }

  lemma FrameSlices(e: Endian, m: Message, tail: seq<byte>)
    requires Complete(m)
    ensures var s := Frame(e, m) + tail;
      && s[..4] == Put32(e, HEADER + |m.payload|) && s[4..6] == Put16(e, m.typeID)
      && s[8..12] == Put32(e, m.sequence) && s[HEADER..HEADER + |m.payload|] == m.payload
  {
    hide Put32, Put16;
    var size := Put32(e, HEADER + |m.payload|);
    Slices(size, Put16(e, m.typeID), Put16(e, m.flags), Put32(e, m.sequence), Put32(e, m.port), m.payload, tail);
  }

  lemma FrameFields(e: Endian, m: Message, tail: seq<byte>)
    requires Complete(m)
    ensures var s := Frame(e, m) + tail;
      && Get32(e, s[..4]) == HEADER + |m.payload| && Get16(e, s[4..6]) == m.typeID
      && Get32(e, s[8..12]) == m.sequence && s[HEADER..HEADER + |m.payload|] == m.payload
  {
    FrameSlices(e, m, tail);
    Got32(e, HEADER + |m.payload|);
    Got16(e, m.typeID);
    Got32(e, m.sequence);
  }

  lemma SkipOther(e: Endian, m: Message, tail: seq<byte>, sequence: uint32)
    requires Complete(m) && m.sequence != sequence
    ensures ParseResponse(e, Padded(Frame(e, m)) + tail, sequence) == ParseResponse(e, tail, sequence)
  {
    var f := Frame(e, m);
    var pad := Zeros(Align4(|f|) - |f|);
    assert Padded(f) + tail == f + (pad + tail);
    FrameFields(e, m, pad + tail);
    AfterPadded(f, tail);
  }

  /** Complete messages of other sequence numbers are skipped. */
  lemma {:induction false} SkipOthers(e: Endian, others: seq<Message>, tail: seq<byte>, sequence: uint32)
    requires forall m :: m in others ==> Complete(m) && m.sequence != sequence
    ensures ParseResponse(e, Stream(e, others) + tail, sequence) == ParseResponse(e, tail, sequence)
  {
    if others == [] {
      assert Stream(e, others) + tail == tail;
    } else {
      StreamFirst(e, others, tail);
      SkipOther(e, others[0], Stream(e, others[1..]) + tail, sequence);
      SkipOthers(e, others[1..], tail, sequence);
    }
  }

  lemma StreamFirst(e: Endian, messages: seq<Message>, tail: seq<byte>)
    requires messages != []
    ensures Stream(e, messages) + tail == Padded(Frame(e, messages[0])) + (Stream(e, messages[1..]) + tail)
  {
    Assoc(Padded(Frame(e, messages[0])), Stream(e, messages[1..]), tail);
  }

  /** The awaited message answers, whatever complete messages of other sequence numbers precede it
      and whatever bytes follow. */
  lemma AwaitedAnswers(e: Endian, others: seq<Message>, m: Message, tail: seq<byte>)
    requires forall o :: o in others ==> Complete(o) && o.sequence != m.sequence
    requires Complete(m)
    ensures ParseResponse(e, Stream(e, others) + (Frame(e, m) + tail), m.sequence) == Answer(e, m.typeID, m.payload)
  {
    SkipOthers(e, others, Frame(e, m) + tail, m.sequence);
    FrameFields(e, m, tail);
  }

  // ---------------------------------------------------------------- requests

  /** A request as a message: Generic Netlink header and one padded attribute. */
  function RequestMessage(e: Endian, typeID: uint16, command: byte, version: byte, sequence: uint32, port: uint32,
                          a: Attribute): Message {
    Message(typeID, REQUEST_FLAG, sequence, port, [command, version, 0, 0] + Padded(Bare(e, a)))
  }

  /** Bytes written at the front of a zeroed tail. */
  method Write(message: array<byte>, at: nat, bytes: seq<byte>, ghost before: seq<byte>)
    returns (ghost after: seq<byte>)
    requires at == |before| && at + |bytes| <= message.Length && Filled(message[..], before)
    modifies message
    ensures after == before + bytes && Filled(message[..], after)
  {
    after := before + bytes;
    for i := 0 to |bytes|
      invariant message[..] == before + bytes[..i] + Zeros(message.Length - at - i)
    {
      message[at + i] := bytes[i];
    }
  }

  /** Written so far; the rest is still zero. */
  predicate Filled(message: seq<byte>, written: seq<byte>) {
    |written| <= |message| && message == written + Zeros(|message| - |written|)
  }

  lemma LeaveZeros(message: seq<byte>, written: seq<byte>, n: nat)
    requires Filled(message, written) && |written| + n <= |message|
    ensures Filled(message, written + Zeros(n))
  {
  }

  method WriteHeader(message: array<byte>, e: Endian, length: uint32, typeID: uint16, sequence: uint32, port: uint32)
    returns (ghost b: seq<byte>)
    requires HEADER <= message.Length && Filled(message[..], [])
    modifies message
    ensures Filled(message[..], b)
    ensures b == Put32(e, length) + Put16(e, typeID) + Put16(e, REQUEST_FLAG) + Put32(e, sequence) + Put32(e, port)
  {
    b := Write(message, 0, Put32(e, length), []);
    b := Write(message, 4, Put16(e, typeID), b);
    b := Write(message, 6, Put16(e, REQUEST_FLAG), b);
    b := Write(message, 8, Put32(e, sequence), b);
    b := Write(message, 12, Put32(e, port), b);
  }

  /** The part after the netlink header. */
  method WritePayload(message: array<byte>, e: Endian, command: byte, version: byte, a: Attribute,
                      ghost header: seq<byte>)
    requires |header| == HEADER && Filled(message[..], header)
    requires message.Length == HEADER + GENL_HEADER + Align4(ATTRIBUTE_HEADER + |a.data|)
    modifies message
    ensures message[..] == header + ([command, version, 0, 0] + Padded(Bare(e, a)))
  {
    ghost var b := Write(message, 16, [command, version], header);
    LeaveZeros(message[..], b, 2);
    b := Write(message, 20, Put16(e, (ATTRIBUTE_HEADER + |a.data|) % 0x1_0000), b + Zeros(2));
    b := Write(message, 22, Put16(e, a.typeID), b);
    b := Write(message, 24, a.data, b);
    RequestLayout(e, header, command, version, a, message[..], b);
  }

  lemma RequestLayout(e: Endian, header: seq<byte>, command: byte, version: byte, a: Attribute, message: seq<byte>,
                      b: seq<byte>)
    requires b == header + [command, version] + Zeros(2) + Put16(e, (ATTRIBUTE_HEADER + |a.data|) % 0x1_0000)
                  + Put16(e, a.typeID) + a.data
    requires Filled(message, b) && |header| == HEADER
    requires |message| == HEADER + GENL_HEADER + Align4(ATTRIBUTE_HEADER + |a.data|)
    ensures message == header + ([command, version, 0, 0] + Padded(Bare(e, a)))
  {
    assert b == header + ([command, version, 0, 0] + Bare(e, a));
  }

  method BuildNetlinkRequest(e: Endian, typeID: uint16, command: byte, version: byte, sequence: uint32, port: uint32,
                             attributeType: uint16, attributeData: seq<byte>) returns (message: array<byte>)
    ensures fresh(message)
    ensures message[..] == Frame(e, RequestMessage(e, typeID, command, version, sequence, port,
                                                   Attribute(attributeType, attributeData)))
  {
    var a := Attribute(attributeType, attributeData);
    var totalSize := HEADER + GENL_HEADER + Align4(ATTRIBUTE_HEADER + |attributeData|);
    message := new byte[totalSize](_ => 0);
    ghost var header := WriteHeader(message, e, totalSize % 0x1_0000_0000, typeID, sequence, port);
    WritePayload(message, e, command, version, a, header);
  }

  /** The payload of a request, as a server would take it apart. */
  function Requested(e: Endian, payload: seq<byte>): Result<seq<Attribute>> {
    if |payload| < GENL_HEADER then Err(ShortResponse(|payload|)) else ParseAttributes(e, payload[GENL_HEADER..])
  }

  /** A built request of an ordinary type answers its own sequence number with its own payload, after any
      complete messages of other sequence numbers; and its attribute parses back exactly when the
      attribute's length fits its 16-bit field. */
  lemma RequestRoundTrip(e: Endian, others: seq<Message>, typeID: uint16, command: byte, version: byte,
                         sequence: uint32, port: uint32, a: Attribute, tail: seq<byte>)
    requires forall o :: o in others ==> Complete(o) && o.sequence != sequence
    requires typeID != ERROR_TYPE && typeID != DONE_TYPE
    requires var m := RequestMessage(e, typeID, command, version, sequence, port, a); Complete(m)
    ensures var m := RequestMessage(e, typeID, command, version, sequence, port, a);
      && ParseResponse(e, Stream(e, others) + (Frame(e, m) + tail), sequence) == Payload(m.payload)
      && m.payload[..2] == [command, version]
      && (Requested(e, m.payload) == Ok([Masked(a)]) <==> Encodable(a))
  {
    var m := RequestMessage(e, typeID, command, version, sequence, port, a);
    AwaitedAnswers(e, others, m, tail);
    assert m.payload[GENL_HEADER..] == Padded(Bare(e, a));
    AttributeComesBack(e, a);
  }

  lemma AttributeComesBack(e: Endian, a: Attribute)
    ensures ParseAttributes(e, Padded(Bare(e, a))) == Ok([Masked(a)]) <==> Encodable(a)
  {
    var p := Padded(Bare(e, a));
    if Encodable(a) {
      assert p + [] == p;
      ParseOne(e, a, []);
      ZerosEnd(e, 0);
      PrefixEnd([Masked(a)]);
    }
    if ParseAttributes(e, p) == Ok([Masked(a)]) {
      ParsedAreEncodable(e, p, Masked(a));
    }
  }

  /** The failing input: at 2^16 bytes the length field wraps to zero, and nothing can be parsed. */
  lemma OverlongAttributeIsLost(e: Endian, a: Attribute)
    requires ATTRIBUTE_HEADER + |a.data| == 0x1_0000
    ensures ParseAttributes(e, Padded(Bare(e, a))) == Err(BadLength(0))
  {
    var p := Padded(Bare(e, a));
    assert p[..2] == Put16(e, 0);
    Got16(e, 0);
  }

  /** A request for such an attribute is still well framed, but its attribute cannot be read. */
  lemma OverlongRequest(e: Endian, typeID: uint16, command: byte, version: byte, sequence: uint32, port: uint32)
    ensures var a := Attribute(1, Zeros(0xFFFC));
            var m := RequestMessage(e, typeID, command, version, sequence, port, a);
            Complete(m) && Requested(e, m.payload) == Err(BadLength(0))
  {
    var a := Attribute(1, Zeros(0xFFFC));
    var payload := [command, version, 0, 0] + Padded(Bare(e, a));
    assert payload[GENL_HEADER..] == Padded(Bare(e, a));
    OverlongAttributeIsLost(e, a);
  }
}
