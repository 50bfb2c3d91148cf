/** The string functions the procfs parsers rest on, over bytes; white space is ASCII. */
module Text {
  import opened Machine
  import opened Wrappers

  const SPACE: byte := 0x20
  const OPEN: byte := 0x28
  const CLOSE: byte := 0x29
  const PLUS: byte := 0x2B
  const MINUS: byte := 0x2D
  const ZERO: byte := 0x30

  predicate IsSpace(b: byte) { b == SPACE || 9 <= b <= 13 }

  predicate Spaceless(s: seq<byte>) { forall i :: 0 <= i < |s| ==> !IsSpace(s[i]) }

  /** `strings.IndexByte`. */
  function IndexByte(s: seq<byte>, c: byte): (r: int)
    ensures r == -1 ==> c !in s
    ensures r != -1 ==> 0 <= r < |s| && s[r] == c && forall i :: 0 <= i < r ==> s[i] != c
  {
    if s == [] then -1
    else
      var r := IndexByte(s[..|s| - 1], c);
      if r != -1 then r else if s[|s| - 1] == c then |s| - 1 else -1
  }

  /** `strings.LastIndexByte`. */
  function LastIndexByte(s: seq<byte>, c: byte): (r: int)
    ensures r == -1 ==> c !in s
    ensures r != -1 ==> 0 <= r < |s| && s[r] == c && forall i :: r < i < |s| ==> s[i] != c
  {
    if s == [] then -1
    else if s[|s| - 1] == c then |s| - 1
    else LastIndexByte(s[..|s| - 1], c)
  }

  function TrimLeft(s: seq<byte>): seq<byte> { if s != [] && IsSpace(s[0]) then TrimLeft(s[1..]) else s }

  function TrimRight(s: seq<byte>): seq<byte> {
    if s != [] && IsSpace(s[|s| - 1]) then TrimRight(s[..|s| - 1]) else s
  }

  /** `strings.TrimSpace`. */
  function TrimSpace(s: seq<byte>): seq<byte> { TrimRight(TrimLeft(s)) }

  /** Length of the leading run of non-space bytes. */
  function RunLength(s: seq<byte>): (n: nat)
    ensures n <= |s| && Spaceless(s[..n]) && (n < |s| ==> IsSpace(s[n]))
  {
    if s == [] || IsSpace(s[0]) then 0 else
      assert forall i :: 0 < i < |s| ==> s[i] == s[1..][i - 1];
      1 + RunLength(s[1..])
  }

  /** `strings.Fields`. */
  function Fields(s: seq<byte>): seq<seq<byte>>
    decreases |s|
  {
    if s == [] then []
    else if IsSpace(s[0]) then Fields(s[1..])
    else
      var n := RunLength(s);
      [s[..n]] + Fields(s[n..])
  }

  /** Fields, each behind one space. */
  function Spaced(fields: seq<seq<byte>>): seq<byte> {
    if fields == [] then [] else [SPACE] + fields[0] + Spaced(fields[1..])
  }

  predicate Ends(tail: seq<byte>) { tail == [] || IsSpace(tail[0]) }

  lemma {:induction false} RunEnds(f: seq<byte>, tail: seq<byte>)
    requires Spaceless(f) && Ends(tail)
    ensures RunLength(f + tail) == |f|
  {
    if f != [] {
      assert (f + tail)[1..] == f[1..] + tail;
      RunEnds(f[1..], tail);
    } else {
      assert f + tail == tail;
    }
  }

  lemma FirstField(f: seq<byte>, tail: seq<byte>)
    requires f != [] && Spaceless(f) && Ends(tail)
    ensures Fields([SPACE] + f + tail) == [f] + Fields(tail)
  {
    assert ([SPACE] + f + tail)[1..] == f + tail;
    RunEnds(f, tail);
    assert (f + tail)[..|f|] == f && (f + tail)[|f|..] == tail;
  }

  predicate Splittable(fields: seq<seq<byte>>) {
    forall i :: 0 <= i < |fields| ==> fields[i] != [] && Spaceless(fields[i])
  }

  /** Splitting what was spaced out gives the fields back. */
  lemma {:induction false} FieldsOfSpaced(fields: seq<seq<byte>>, tail: seq<byte>)
    requires Splittable(fields) && Ends(tail)
    ensures Fields(Spaced(fields) + tail) == fields + Fields(tail)
  {
    if fields == [] {
      assert Spaced(fields) + tail == tail;
    } else {
      SpacedFirst(fields, tail);
      FieldsOfSpaced(fields[1..], tail);
      StillEnds(fields[1..], tail);
      FirstOfFields(fields[0], fields[1..], Spaced(fields[1..]) + tail, Fields(tail));
      assert [fields[0]] + fields[1..] == fields;
    }
  }

  lemma FirstOfFields(f: seq<byte>, fs: seq<seq<byte>>, rest: seq<byte>, more: seq<seq<byte>>)
    requires f != [] && Spaceless(f) && Ends(rest) && Fields(rest) == fs + more
    ensures Fields([SPACE] + f + rest) == [f] + fs + more
  {
    FirstField(f, rest);
  }

  lemma SpacedFirst(fields: seq<seq<byte>>, tail: seq<byte>)
    requires fields != []
    ensures Spaced(fields) + tail == [SPACE] + fields[0] + (Spaced(fields[1..]) + tail)
  {
  }

  lemma StillEnds(fields: seq<seq<byte>>, tail: seq<byte>)
    requires Ends(tail)
    ensures Ends(Spaced(fields) + tail)
  {
    if fields == [] { assert Spaced(fields) + tail == tail; }
  }

  // ---------------------------------------------------------------- decimal numbers

  predicate IsDigit(b: byte) { ZERO <= b <= ZERO + 9 }

  predicate AllDigits(s: seq<byte>) { forall i :: 0 <= i < |s| ==> IsDigit(s[i]) }

  /** Value of a digit string. */
  function Value(s: seq<byte>): nat
    requires AllDigits(s)
  {
    if s == [] then 0 else 10 * Value(s[..|s| - 1]) + (s[|s| - 1] - ZERO)
  }

  const UINT64_LIMIT: int := 0x1_0000_0000_0000_0000
  const INT64_LIMIT: int := 0x8000_0000_0000_0000

  /** `strconv.ParseUint(s, 10, 64)`. */
  function ParseUint(s: seq<byte>): Option<nat> {
    if s == [] || !AllDigits(s) || UINT64_LIMIT <= Value(s) then None else Some(Value(s))
  }

  /** `strconv.ParseInt(s, 10, 64)`, and `strconv.Atoi` on a 64-bit machine. */
  function ParseInt(s: seq<byte>): (r: Option<int>)
    ensures r.Some? ==> -INT64_LIMIT <= r.value < INT64_LIMIT
  {
    if s == [] then None
    else
      var digits := ParseUint(if s[0] == PLUS || s[0] == MINUS then s[1..] else s);
      if digits.None? then None
      else
        var n: int := digits.value;
        if s[0] == MINUS then if n <= INT64_LIMIT then Some(-n) else None
        else if n < INT64_LIMIT then Some(n) else None
  }

  /** Decimal form without leading zeros. */
  function Digits(n: nat): (s: seq<byte>)
    ensures s != [] && AllDigits(s)
  {
    if n < 10 then [ZERO + n] else Digits(n / 10) + [ZERO + n % 10]
  }

  function Decimal(n: int): seq<byte> { if n < 0 then [MINUS] + Digits(-n) else Digits(n) }

  lemma {:induction false} ValueOfDigits(n: nat)
    ensures Value(Digits(n)) == n
  {
    if 10 <= n {
      ValueOfDigits(n / 10);
      assert Digits(n)[..|Digits(n)| - 1] == Digits(n / 10);
    } else {
      assert Digits(n)[..0] == [];
    }
  }

  lemma UintRoundTrip(n: nat)
    requires n < UINT64_LIMIT
    ensures ParseUint(Digits(n)) == Some(n)
  {
    ValueOfDigits(n);
  }

  lemma IntRoundTrip(n: int)
    requires -INT64_LIMIT <= n < INT64_LIMIT
    ensures ParseInt(Decimal(n)) == Some(n)
  {
    if n < 0 {
      assert Decimal(n)[1..] == Digits(-n);
      UintRoundTrip(-n);
    } else {
      UintRoundTrip(n);
    }
  }

  lemma DecimalPlain(n: int)
    ensures var s := Decimal(n); s != [] && Spaceless(s) && OPEN !in s && CLOSE !in s
  {
    var s := Decimal(n);
    forall i | 0 <= i < |s| ensures s[i] == MINUS || IsDigit(s[i]) {
      if n < 0 && 0 < i { assert s[i] == Digits(-n)[i - 1]; }
    }
  }
}
