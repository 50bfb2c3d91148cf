/** Joining an event report with the auxiliary report of its window
    (`mergeHybridReport`, internal/collector/collector.go). */
module Merge {
  import opened Model
  import EventTimeline

  /** Both rows carry the same start time under one of the two clocks. */
  predicate SameProven(l: Row, r: Row) {
    && l.id.tid == r.id.tid
    && if l.id.ticks != 0 && r.id.ticks != 0 then l.id.ticks == r.id.ticks
       else l.id.ns != 0 && l.id.ns == r.id.ns
  }

  function CopyDelay(target: Row, source: Row): Row { target.(delay := source.delay) }

  predicate Candidate(row: Row, aux: seq<Row>, taken: seq<int>, j: int) {
    0 <= j < |aux| && j !in taken && SameProven(row, aux[j])
  }

  /** `j` is the only candidate left for `row`. */
  ghost predicate Sole(row: Row, aux: seq<Row>, taken: seq<int>, j: int) {
    Candidate(row, aux, taken, j) && forall k :: Candidate(row, aux, taken, k) ==> k == j
  }

  const UNLINKED: int := -1

  ghost function Link(row: Row, aux: seq<Row>, taken: seq<int>): (j: int)
    ensures j == UNLINKED || Sole(row, aux, taken, j)
    ensures forall k :: Sole(row, aux, taken, k) ==> j == k
  {
    if exists k :: Sole(row, aux, taken, k) then var k :| Sole(row, aux, taken, k); k else UNLINKED
  }

  /** The auxiliary row linked to each event row, event rows taking their turn in order. */
  ghost function Links(events: seq<Row>, aux: seq<Row>): (links: seq<int>)
    ensures |links| == |events|
  {
    if events == [] then []
    else
      var rest := Links(events[..|events| - 1], aux);
      rest + [Link(events[|events| - 1], aux, rest)]
  }

  function Joined(row: Row, aux: seq<Row>, link: int): Row {
    if 0 <= link < |aux| then CopyDelay(row, aux[link]) else row
  }

  ghost function Threads(events: seq<Row>, aux: seq<Row>): (rows: seq<Row>)
    ensures |rows| == |events|
  {
    var links := Links(events, aux);
    seq(|events|, i requires 0 <= i < |events| => Joined(events[i], aux, links[i]))
  }

  /** Delay-bearing rows among the first `n` auxiliary ones that no event row took. */
  function Mismatches(aux: seq<Row>, links: seq<int>, n: nat): nat
    requires n <= |aux|
  {
    if n == 0 then 0
    else Mismatches(aux, links, n - 1) + if n - 1 !in links && aux[n - 1].HasDelays() then 1 else 0
  }

  function MergeQuality(q: Quality, aux: Quality, mismatches: nat): Quality {
    q.(mismatches := q.mismatches + mismatches,
       scan := q.scan.(snapshots := aux.scan.snapshots, maxScan := aux.scan.maxScan),
       taskstats := aux.taskstats,
       samplingMethod :=
         if aux.taskstats.available then EventTimeline.METHOD + "+taskstats_counters" else q.samplingMethod)
  }

  predicate SameBounds(event: Report, aux: Report) { event.start == aux.start && event.end == aux.end }

  ghost function MergeReports(event: Report, aux: Report): Report {
    if !SameBounds(event, aux) then event
    else event.(threads := Threads(event.threads, aux.threads),
                quality := MergeQuality(event.quality, aux.quality,
                                        Mismatches(aux.threads, Links(event.threads, aux.threads), |aux.threads|)))
  }

  // ---------------------------------------------------------------- the loops

  /** The flags of the rows taken so far. */
  predicate Marks(used: seq<bool>, taken: seq<int>) {
    forall j :: 0 <= j < |used| ==> (used[j] <==> j in taken)
  }

  /** The search for one event row's partner, giving up at the second candidate. */
  method FindPartner(row: Row, aux: seq<Row>, used: array<bool>, ghost taken: seq<int>) returns (partner: int)
    requires used.Length == |aux| && Marks(used[..], taken)
    ensures partner == Link(row, aux, taken)
  {
    partner := -1;
    var ambiguous := false;
    for a := 0 to |aux|
      invariant !ambiguous
      invariant partner == UNLINKED || (partner < a && Candidate(row, aux, taken, partner))
      invariant forall k :: 0 <= k < a && Candidate(row, aux, taken, k) ==> k == partner
    {
      if !used[a] && SameProven(row, aux[a]) {
        if 0 <= partner {
          ambiguous := true;
          assert Candidate(row, aux, taken, a) && a != partner;
          break;
        }
        partner := a;
      }
    }
    if ambiguous {
      partner := -1;
    } else if 0 <= partner {
      assert Sole(row, aux, taken, partner);
    }
  }

  /** One event row's turn. */
  method MergeThread(threads: array<Row>, e: nat, aux: seq<Row>, used: array<bool>, ghost taken: seq<int>)
    requires e < threads.Length && used.Length == |aux| && Marks(used[..], taken)
    modifies threads, used
    ensures var link := Link(old(threads[e]), aux, taken);
      Marks(used[..], taken + [link]) && threads[..] == old(threads[..])[e := Joined(old(threads[e]), aux, link)]
  {
    var link := FindPartner(threads[e], aux, used, taken);
    MarkOne(used[..], taken, link);
    if 0 <= link {
      threads[e] := CopyDelay(threads[e], aux[link]);
      used[link] := true;
    }
  }

  /** `threads` is the array behind the event report's rows, which the source overwrites in place. */
  method MergeThreads(threads: array<Row>, aux: seq<Row>) returns (used: array<bool>)
    modifies threads
    ensures fresh(used) && threads[..] == Threads(old(threads[..]), aux)
    ensures used.Length == |aux| && Marks(used[..], Links(old(threads[..]), aux))
  {
    used := new bool[|aux|](_ => false);
    ghost var events := threads[..];
    for e := 0 to threads.Length
      invariant used.Length == |aux| && Marks(used[..], Links(events[..e], aux))
      invariant threads[..] == Threads(events[..e], aux) + events[e..]
      modifies threads, used
    {
      ghost var rows := Threads(events[..e], aux);
      OneMoreLinked(events, aux, e);
      assert threads[e] == (rows + events[e..])[e] == events[e];
      MergeThread(threads, e, aux, used, Links(events[..e], aux));
      NextRow(rows, events, e, Joined(events[e], aux, Link(events[e], aux, Links(events[..e], aux))));
    }
    assert events[..threads.Length] == events;
  }

  lemma MarkOne(used: seq<bool>, links: seq<int>, link: int)
    requires Marks(used, links) && link < |used|
    ensures Marks(if 0 <= link then used[link := true] else used, links + [link])
  {
  }

  lemma NextRow(rows: seq<Row>, events: seq<Row>, e: nat, row: Row)
    requires |rows| == e < |events|
    ensures (rows + events[e..])[e := row] == rows + [row] + events[e + 1..]
  {
  }

  lemma OneMoreLinked(events: seq<Row>, aux: seq<Row>, e: nat)
    requires e < |events|
    ensures var links := Links(events[..e], aux);
      && Links(events[..e + 1], aux) == links + [Link(events[e], aux, links)]
      && Threads(events[..e + 1], aux) ==
         Threads(events[..e], aux) + [Joined(events[e], aux, Link(events[e], aux, links))]
  {
    assert events[..e + 1][..e] == events[..e];
  }

  method MergeHybridReport(event: Report, threads: array<Row>, aux: Report) returns (merged: Report)
    requires threads[..] == event.threads
    modifies threads
    ensures merged == MergeReports(event, aux) && threads[..] == merged.threads
  {
    merged := event;
    if event.start != aux.start || event.end != aux.end {
      return;
    }
    var used := MergeThreads(threads, aux.threads);
    ghost var links := Links(event.threads, aux.threads);
    var mismatches := 0;
    for j := 0 to |aux.threads|
      invariant mismatches == Mismatches(aux.threads, links, j)
    {
      if !used[j] && aux.threads[j].HasDelays() {
        mismatches := mismatches + 1;
      }
    }
    merged := event.(threads := threads[..], quality := MergeQuality(event.quality, aux.quality, mismatches));
  }

  // ---------------------------------------------------------------- properties

  lemma {:induction false} LinkAt(events: seq<Row>, aux: seq<Row>, i: nat)
    requires i < |events|
    ensures Links(events, aux)[i] == Link(events[i], aux, Links(events, aux)[..i])
  {
    var last := |events| - 1;
    var rest := Links(events[..last], aux);
    assert Links(events, aux)[..last] == rest;
    if i < last {
      LinkAt(events[..last], aux, i);
      assert Links(events, aux)[..i] == rest[..i];
    }
  }

  /** Only rows proven to be the same thread are linked, and no auxiliary row is linked twice. */
  lemma LinksAreProvenAndInjective(events: seq<Row>, aux: seq<Row>, i: nat)
    requires i < |events|
    ensures var links := Links(events, aux);
      && (links[i] == UNLINKED || (0 <= links[i] < |aux| && SameProven(events[i], aux[links[i]])))
      && forall k :: 0 <= k < |events| && k != i && links[k] == links[i] ==> links[i] == UNLINKED
  {
    var links := Links(events, aux);
    LinkAt(events, aux, i);
    forall k: nat | k < |events| && k != i && links[k] == links[i] ensures links[i] == UNLINKED {
      LinkAt(events, aux, k);
      if k < i { assert links[..i][k] == links[k]; } else { assert links[..k][i] == links[i]; }
    }
  }

  /** Merging touches nothing the events measured. */
  lemma SchedulerMetricsUnchanged(event: Report, aux: Report)
    ensures var m := MergeReports(event, aux);
      && m.start == event.start && m.end == event.end && |m.threads| == |event.threads|
      && (forall i :: 0 <= i < |m.threads| ==> m.threads[i].(delay := event.threads[i].delay) == event.threads[i])
      && m.quality.events == event.quality.events && m.quality.missed == event.quality.missed
      && m.quality.schedstat == event.quality.schedstat && m.quality.scan.maxGap == event.quality.scan.maxGap
      && (!SameBounds(event, aux) ==> m == event)
  {
  }

  function Copied(aux: seq<Row>, links: seq<int>): nat {
    if links == [] then 0
    else
      var last := links[|links| - 1];
      Copied(aux, links[..|links| - 1]) + if 0 <= last < |aux| && aux[last].HasDelays() then 1 else 0
  }

  function Bearing(aux: seq<Row>, n: nat): nat
    requires n <= |aux|
  {
    if n == 0 then 0 else Bearing(aux, n - 1) + if aux[n - 1].HasDelays() then 1 else 0
  }

  /** Taking one more row out of the unlinked ones lowers the mismatches by one, if it bears delays. */
  lemma {:induction false} OneMoreLink(aux: seq<Row>, links: seq<int>, j: nat, n: nat)
    requires n <= |aux| && j !in links
    ensures Mismatches(aux, links + [j], n) + (if j < n && aux[j].HasDelays() then 1 else 0) ==
            Mismatches(aux, links, n)
  {
    if n != 0 {
      OneMoreLink(aux, links, j, n - 1);
      assert n - 1 in links + [j] <==> n - 1 in links || n - 1 == j;
    }
  }

  lemma {:induction false} NoLinkMore(aux: seq<Row>, links: seq<int>, n: nat)
    requires n <= |aux|
    ensures Mismatches(aux, links + [UNLINKED], n) == Mismatches(aux, links, n)
  {
    if n != 0 {
      NoLinkMore(aux, links, n - 1);
      assert n - 1 in links + [UNLINKED] <==> n - 1 in links;
    }
  }

  lemma {:induction false} NoLinks(aux: seq<Row>, n: nat)
    requires n <= |aux|
    ensures Mismatches(aux, [], n) == Bearing(aux, n)
  {
    if n != 0 { NoLinks(aux, n - 1); }
  }

  /** Every delay-bearing auxiliary row is copied to one event row or counted as one mismatch. */
  lemma {:induction false} DelaysCopiedOrCounted(events: seq<Row>, aux: seq<Row>)
    ensures var links := Links(events, aux);
            Copied(aux, links) + Mismatches(aux, links, |aux|) == Bearing(aux, |aux|)
  {
    if events == [] {
      NoLinks(aux, |aux|);
    } else {
      var rest := Links(events[..|events| - 1], aux);
      var link := Link(events[|events| - 1], aux, rest);
      DelaysCopiedOrCounted(events[..|events| - 1], aux);
      if link == UNLINKED { NoLinkMore(aux, rest, |aux|); } else { OneMoreLink(aux, rest, link, |aux|); }
      assert (rest + [link])[..|events| - 1] == rest;
    }
  }

  lemma QualityFields(q: Quality, aux: Quality, n: nat)
    ensures var m := MergeQuality(q, aux, n);
      && m.mismatches == q.mismatches + n && m.scan.snapshots == aux.scan.snapshots
      && m.scan.maxScan == aux.scan.maxScan && m.taskstats == aux.taskstats
      && m.samplingMethod == if aux.taskstats.available then "ebpf_sched_events+taskstats_counters"
                             else q.samplingMethod
  {
  }

  /** What merging takes from the auxiliary report: its scan counts, its taskstats quality, the name of the
      method, and one mismatch for each delay-bearing row that was not copied. */
  lemma AuxiliaryTaken(event: Report, aux: Report)
    requires SameBounds(event, aux)
    ensures var q, p, links := MergeReports(event, aux).quality, event.quality, Links(event.threads, aux.threads);
      && q.mismatches == p.mismatches + Bearing(aux.threads, |aux.threads|) - Copied(aux.threads, links)
      && q.scan.snapshots == aux.quality.scan.snapshots && q.scan.maxScan == aux.quality.scan.maxScan
      && q.taskstats == aux.quality.taskstats
      && (aux.quality.taskstats.available ==> q.samplingMethod == "ebpf_sched_events+taskstats_counters")
      && (!aux.quality.taskstats.available ==> q.samplingMethod == p.samplingMethod)
  {
    DelaysCopiedOrCounted(event.threads, aux.threads);
    QualityFields(event.quality, aux.quality,
                  Mismatches(aux.threads, Links(event.threads, aux.threads), |aux.threads|));
  }

  /** A linked row carries all the taskstats fields of its partner, any other keeps its own. */
  lemma DelaysOfPartner(event: Report, aux: Report, i: nat)
    requires SameBounds(event, aux) && i < |event.threads|
    ensures var m, link := MergeReports(event, aux), Links(event.threads, aux.threads)[i];
            if link == UNLINKED then m.threads[i] == event.threads[i]
            else 0 <= link < |aux.threads| && m.threads[i].delay == aux.threads[link].delay
  {
    LinksAreProvenAndInjective(event.threads, aux.threads, i);
  }

  // ---------------------------------------------------------------- the exact join

  /** No row of either report has two partners in the other. */
  ghost predicate OneToOne(events: seq<Row>, aux: seq<Row>) {
    forall i: nat, j: nat, k: nat, l: nat | i < |events| && k < |events| && j < |aux| && l < |aux| ::
      SameProven(events[i], aux[j]) && SameProven(events[k], aux[l]) ==> (i == k <==> j == l)
  }

  ghost predicate IsJoin(events: seq<Row>, aux: seq<Row>, links: seq<int>)
    requires |links| == |events|
  {
    forall i, j :: 0 <= i < |events| && 0 <= j < |aux| ==> (links[i] == j <==> SameProven(events[i], aux[j]))
  }

  lemma PartnerFound(events: seq<Row>, aux: seq<Row>, i: nat, j: nat)
    requires OneToOne(events, aux) && i < |events| && j < |aux| && SameProven(events[i], aux[j])
    ensures Links(events, aux)[i] == j
  {
    var links := Links(events, aux);
    LinkAt(events, aux, i);
    forall k: nat | k < i ensures links[..i][k] != j {
      LinksAreProvenAndInjective(events, aux, k);
    }
    assert Sole(events[i], aux, links[..i], j);
  }

  /** The greedy links are the join of the two reports exactly when partners are unambiguous both ways. */
  lemma GreedyIsJoin(events: seq<Row>, aux: seq<Row>)
    ensures IsJoin(events, aux, Links(events, aux)) <==> OneToOne(events, aux)
  {
    var links := Links(events, aux);
    forall i: nat | i < |events|
      ensures links[i] == UNLINKED || (0 <= links[i] < |aux| && SameProven(events[i], aux[links[i]]))
    {
      LinksAreProvenAndInjective(events, aux, i);
    }
    if OneToOne(events, aux) {
      forall i: nat, j: nat | i < |events| && j < |aux| && SameProven(events[i], aux[j]) ensures links[i] == j {
        PartnerFound(events, aux, i, j);
      }
    }
    if IsJoin(events, aux, links) {
      forall i: nat, j: nat, k: nat, l: nat | i < |events| && k < |events| && j < |aux| && l < |aux|
        && SameProven(events[i], aux[j]) && SameProven(events[k], aux[l]) ensures i == k <==> j == l
      {
        LinksAreProvenAndInjective(events, aux, i);
        assert links[i] == j && links[k] == l;
      }
    }
  }

  /** Rows whose identities differ in thread or start ticks; rows without ticks are left aside. */
  ghost predicate DistinctTicks(rows: seq<Row>) {
    forall i, k :: 0 <= i < k < |rows| && rows[i].id.ticks != 0 ==>
      rows[i].id.tid != rows[k].id.tid || rows[i].id.ticks != rows[k].id.ticks
  }

  /** Rows that procfs identified: start ticks only. */
  predicate ProcIdentified(rows: seq<Row>) {
    forall j :: 0 <= j < |rows| ==> rows[j].id.ticks != 0 && rows[j].id.ns == 0
  }

  /** With distinct start ticks on both sides, merging is the join on thread and start ticks. */
  lemma JoinOnTicks(events: seq<Row>, aux: seq<Row>, i: nat, j: nat)
    requires DistinctTicks(events) && DistinctTicks(aux) && ProcIdentified(aux) && i < |events| && j < |aux|
    ensures Links(events, aux)[i] == j <==>
            events[i].id.tid == aux[j].id.tid && events[i].id.ticks == aux[j].id.ticks
    ensures events[i].id.tid == aux[j].id.tid && events[i].id.ticks == aux[j].id.ticks
            ==> Threads(events, aux)[i].delay == aux[j].delay
  {
    forall x, y | 0 <= x < |events| && 0 <= y < |aux|
      ensures SameProven(events[x], aux[y]) <==>
              events[x].id.tid == aux[y].id.tid && events[x].id.ticks == aux[y].id.ticks {}
    GreedyIsJoin(events, aux);
  }

  /** An event row whose start ticks are not known has no partner among rows that procfs identified. */
  lemma UntickedStayAlone(events: seq<Row>, aux: seq<Row>, i: nat)
    requires ProcIdentified(aux) && i < |events| && events[i].id.ticks == 0
    ensures Links(events, aux)[i] == UNLINKED && Threads(events, aux)[i] == events[i]
  {
    LinksAreProvenAndInjective(events, aux, i);
  }

  /** Two event rows that one auxiliary row fits: only the first gets its delays. */
  lemma SecondRowGetsNothing(first: Row, second: Row, aux: Row)
    requires SameProven(first, aux) && SameProven(second, aux)
    ensures Links([first, second], [aux]) == [0, UNLINKED]
    ensures Threads([first, second], [aux]) == [CopyDelay(first, aux), second]
  {
    LinkAt([first, second], [aux], 0);
    LinkAt([first, second], [aux], 1);
    var links := Links([first, second], [aux]);
    assert Sole(first, [aux], links[..0], 0);
    assert links[..1] == [0];
  }

  /** The failing input: a thread number reused within one clock tick. Events tell its two threads apart by
      their nanoseconds; procfs has only the tick, and knows one of them. */
  lemma ReuseWithinTickBreaksJoin(first: Row, second: Row, aux: Row, tid: int, ticks: nat, older: nat, newer: nat)
    requires first.id == Identity(tid, ticks, older) && second.id == Identity(tid, ticks, newer)
    requires aux.id == Identity(tid, ticks, 0) && ticks != 0 && older < newer
    ensures Threads([first, second], [aux]) == [CopyDelay(first, aux), second]
    ensures !IsJoin([first, second], [aux], Links([first, second], [aux]))
  {
    SecondRowGetsNothing(first, second, aux);
  }
}
