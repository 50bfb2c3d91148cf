/** The stat line of a task (`ParseProcStatLine`, internal/procfs/parser.go). */
module ProcStat {
  import opened Machine
  import opened Wrappers
  import opened Text

  datatype TaskStat = TaskStat(tid: int, comm: seq<byte>, state: byte, startTicks: nat)

  datatype Problem = MissingOpen | MissingClose | MissingTid | InvalidTid | MissingState | MissingStart
                   | InvalidState | InvalidStart

  datatype Parsed = Ok(stat: TaskStat) | Bad(problem: Problem)

  const START_FIELD: nat := 19

  function ParseFields(tid: int, comm: seq<byte>, fields: seq<seq<byte>>): Parsed {
    if |fields| == 0 then Bad(MissingState)
    else if |fields| < START_FIELD + 1 then Bad(MissingStart)
    else if |fields[0]| != 1 then Bad(InvalidState)
    else
      var start := ParseUint(fields[START_FIELD]);
      if start.None? then Bad(InvalidStart) else Ok(TaskStat(tid, comm, fields[0][0], start.value))
  }

  function Parse(line: seq<byte>): Parsed {
    var open := IndexByte(line, OPEN);
    if open < 0 then Bad(MissingOpen)
    else
      var close := LastIndexByte(line, CLOSE);
      if close < open then Bad(MissingClose)
      else
        var prefix := TrimSpace(line[..open]);
        if prefix == [] then Bad(MissingTid)
        else
          var tid := ParseInt(prefix);
          if tid.None? then Bad(InvalidTid)
          else ParseFields(tid.value, line[open + 1..close], Fields(line[close + 1..]))
  }

  /** What the kernel prints: thread, name in parentheses, state, eighteen more fields, start time, and
      whatever follows. */
  function Line(s: TaskStat, middle: seq<seq<byte>>, tail: seq<byte>): seq<byte> {
    Decimal(s.tid) + [SPACE, OPEN] + s.comm + [CLOSE] + Suffix(s, middle, tail)
  }

  function FieldsOf(s: TaskStat, middle: seq<seq<byte>>): seq<seq<byte>> {
    [[s.state]] + middle + [Digits(s.startTicks)]
  }

  function Suffix(s: TaskStat, middle: seq<seq<byte>>, tail: seq<byte>): seq<byte> {
    Spaced(FieldsOf(s, middle)) + tail
  }

  predicate Plain(f: seq<byte>) { f != [] && Spaceless(f) && CLOSE !in f }

  lemma OpenAt(a: seq<byte>, b: seq<byte>)
    requires OPEN !in a
    ensures IndexByte(a + [OPEN] + b, OPEN) == |a|
  {
    assert (a + [OPEN] + b)[|a|] == OPEN;
  }

  lemma CloseAt(a: seq<byte>, b: seq<byte>)
    requires CLOSE !in b
    ensures LastIndexByte(a + [CLOSE] + b, CLOSE) == |a|
  {
    assert (a + [CLOSE] + b)[|a|] == CLOSE;
  }

  lemma TrimmedTid(n: int)
    ensures TrimSpace(Decimal(n) + [SPACE]) == Decimal(n)
  {
    var d := Decimal(n);
    var x := d + [SPACE];
    DecimalPlain(n);
    assert x[0] == d[0] && !IsSpace(d[0]) && !IsSpace(d[|d| - 1]);
    assert x[|x| - 1] == SPACE && x[..|x| - 1] == d;
    assert TrimLeft(x) == x && TrimRight(d) == d;
  }

  lemma {:induction false} NoClose(fields: seq<seq<byte>>)
    requires forall f :: f in fields ==> CLOSE !in f
    ensures CLOSE !in Spaced(fields)
  {
    if fields != [] {
      NoClose(fields[1..]);
      assert fields[0] in fields;
    }
  }

  lemma FieldsPlain(s: TaskStat, middle: seq<seq<byte>>)
    requires !IsSpace(s.state) && s.state != CLOSE && forall f :: f in middle ==> Plain(f)
    ensures forall f :: f in FieldsOf(s, middle) ==> Plain(f)
  {
    DecimalPlain(s.startTicks);
    forall f | f in FieldsOf(s, middle) ensures Plain(f) {
      assert f == [s.state] || f in middle || f == Digits(s.startTicks);
    }
  }

  lemma SuffixParses(s: TaskStat, middle: seq<seq<byte>>, tail: seq<byte>)
    requires !IsSpace(s.state) && s.state != CLOSE && s.startTicks < UINT64_LIMIT
    requires |middle| == 18 && forall f :: f in middle ==> Plain(f)
    requires CLOSE !in tail && Ends(tail)
    ensures CLOSE !in Suffix(s, middle, tail)
    ensures ParseFields(s.tid, s.comm, Fields(Suffix(s, middle, tail))) == Ok(s)
  {
    FieldsPlain(s, middle);
    assert forall i :: 0 <= i < |FieldsOf(s, middle)| ==> FieldsOf(s, middle)[i] in FieldsOf(s, middle);
    NoClose(FieldsOf(s, middle));
    FieldsOfSpaced(FieldsOf(s, middle), tail);
    UintRoundTrip(s.startTicks);
  }

  /** Parsing undoes printing, for every thread number, every start time and every name, whatever spaces
      and parentheses it holds. */
  lemma ParseUndoesPrint(s: TaskStat, middle: seq<seq<byte>>, tail: seq<byte>)
    requires -INT64_LIMIT <= s.tid < INT64_LIMIT && s.startTicks < UINT64_LIMIT
    requires !IsSpace(s.state) && s.state != CLOSE
    requires |middle| == 18 && forall f :: f in middle ==> Plain(f)
    requires CLOSE !in tail && Ends(tail)
    ensures Parse(Line(s, middle, tail)) == Ok(s)
  {
    var front, suffix := Decimal(s.tid) + [SPACE], Suffix(s, middle, tail);
    assert Line(s, middle, tail) == front + [OPEN] + s.comm + [CLOSE] + suffix;
    SuffixParses(s, middle, tail);
    DecimalPlain(s.tid);
    TrimmedTid(s.tid);
    IntRoundTrip(s.tid);
    ParseOfParts(front, s.comm, suffix, s.tid);
  }

  lemma ParseOfParts(front: seq<byte>, comm: seq<byte>, suffix: seq<byte>, tid: int)
    requires OPEN !in front && CLOSE !in suffix && TrimSpace(front) != [] && ParseInt(TrimSpace(front)) == Some(tid)
    ensures Parse(front + [OPEN] + comm + [CLOSE] + suffix) == ParseFields(tid, comm, Fields(suffix))
  {
    Outermost(front, comm, suffix);
  }

  lemma Outermost(front: seq<byte>, comm: seq<byte>, suffix: seq<byte>)
    requires OPEN !in front && CLOSE !in suffix
    ensures var line := front + [OPEN] + comm + [CLOSE] + suffix;
      && IndexByte(line, OPEN) == |front| && LastIndexByte(line, CLOSE) == |front| + 1 + |comm|
      && line[..|front|] == front && line[|front| + 1..|front| + 1 + |comm|] == comm
      && line[|front| + 1 + |comm| + 1..] == suffix
  {
    var line := front + [OPEN] + comm + [CLOSE] + suffix;
    assert line == front + [OPEN] + (comm + [CLOSE] + suffix);
    OpenAt(front, comm + [CLOSE] + suffix);
    CloseAt(front + [OPEN] + comm, suffix);
  }

  /** Whatever line is accepted, the name is what stands between the first opening and the last closing
      parenthesis. */
  lemma NameIsOutermost(line: seq<byte>) returns (front: seq<byte>, suffix: seq<byte>)
    requires Parse(line).Ok?
    ensures line == front + [OPEN] + Parse(line).stat.comm + [CLOSE] + suffix
    ensures OPEN !in front && CLOSE !in suffix
  {
    var open, close := IndexByte(line, OPEN), LastIndexByte(line, CLOSE);
    front, suffix := line[..open], line[close + 1..];
  }
}
