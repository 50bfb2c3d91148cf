/** Joining a taskstats scan with a procfs scan (`mergeSnapshots`, internal/backend/hybrid/hybrid.go). */
module SnapshotMerge {
  import opened Wrappers
  import opened Windows
  import opened Model
  import opened Snapshots
  import opened SampleTimeline
  import opened SampleRuns
  import opened SampleThreads

  const METHOD: string := "hybrid_taskstats_procfs_midpoint"

  /** Halfway between two times, to the nanosecond below; a zero time does not count. */
  predicate IsMiddle(left: int, right: int, m: int) {
    if left == 0 || right == 0 then m == left + right
    else Min(left, right) <= m && 0 <= (Max(left, right) - m) - (m - Min(left, right)) <= 1
  }

  function MidpointTimestamp(left: int, right: int): (m: int)
    ensures IsMiddle(left, right, m)
  {
    if left == 0 then right
    else if right == 0 then left
    else Min(left, right) + (Max(left, right) - Min(left, right)) / 2
  }

  function EarlierTimestamp(left: int, right: int): (m: int)
    ensures left == 0 || right == 0 ==> m == left + right
    ensures left != 0 && right != 0 ==> m <= left && m <= right && (m == left || m == right)
  {
    if left == 0 || (right != 0 && right < left) then right else left
  }

  function LaterTimestamp(left: int, right: int): (m: int)
    ensures left <= m && right <= m && (m == left || m == right)
  {
    if left < right then right else left
  }

  /** A procfs sample with the delays of its taskstats sample. */
  function Combine(p: Sample, s: Sample): Sample {
    p.(delays := s.delays, timestamp := MidpointTimestamp(s.timestamp, p.timestamp))
  }

  function Match(stats: map<Identity, Sample>, p: Sample): Sample {
    if p.id in stats then Combine(p, stats[p.id]) else p
  }

  /** Taskstats samples still unmatched after some procfs samples. */
  function Left(stats: map<Identity, Sample>, procs: seq<Sample>): map<Identity, Sample> {
    if procs == [] then stats else Left(stats, procs[..|procs| - 1]) - {procs[|procs| - 1].id}
  }

  function Matched(stats: map<Identity, Sample>, procs: seq<Sample>): (r: seq<Sample>)
    ensures |r| == |procs|
  {
    if procs == [] then []
    else
      var rest, last := procs[..|procs| - 1], procs[|procs| - 1];
      Matched(stats, rest) + [Match(Left(stats, rest), last)]
  }

  predicate DistinctIds(s: seq<Sample>) { forall i, j :: 0 <= i < j < |s| ==> s[i].id != s[j].id }

  /** The samples of a map, in some order. */
  predicate Enumerates(s: seq<Sample>, m: map<Identity, Sample>) {
    && DistinctIds(s) && (forall i :: 0 <= i < |s| ==> s[i].id in m && m[s[i].id] == s[i])
    && forall id :: id in m ==> m[id] in s
  }

  predicate NotAfter(a: Sample, b: Sample) {
    a.id.tid < b.id.tid || (a.id.tid == b.id.tid && a.id.ticks <= b.id.ticks)
  }

  predicate SortedByThread(s: seq<Sample>) { forall i, j :: 0 <= i < j < |s| ==> NotAfter(s[i], s[j]) }

  /** What `mergeSnapshots` may return, whatever the order of its map and of ties in its sort. */
  ghost predicate IsMerge(stats: Snapshot, proc: Snapshot, merged: Snapshot) {
    && (exists rest :: IsSorted(Matched(ByIdentity(stats.samples), proc.samples), rest, merged.samples)
                       && Enumerates(rest, Left(ByIdentity(stats.samples), proc.samples)))
    && merged.startedAt == EarlierTimestamp(stats.startedAt, proc.startedAt)
    && merged.finishedAt == LaterTimestamp(stats.finishedAt, proc.finishedAt)
    && merged.samplingMethod == METHOD
  }

  ghost predicate IsSorted(matched: seq<Sample>, rest: seq<Sample>, merged: seq<Sample>) {
    multiset(merged) == multiset(matched + rest) && SortedByThread(merged)
  }

  // ---------------------------------------------------------------- the loops

  /** One turn of the loop of `MergeSnapshots`. */
  lemma OneMoreMatched(stats: map<Identity, Sample>, procs: seq<Sample>, i: nat)
    requires i < |procs|
    ensures var left, p := Left(stats, procs[..i]), procs[i];
            && Left(stats, procs[..i + 1]) == left - {p.id}
            && Matched(stats, procs[..i + 1]) ==
               Matched(stats, procs[..i]) + [if p.id in left then Combine(p, left[p.id]) else p]
  {
    assert procs[..i + 1][..i] == procs[..i];
  }

  method MergeSnapshots(stats: Snapshot, proc: Snapshot) returns (merged: Snapshot)
    ensures IsMerge(stats, proc, merged)
  {
    var byIdentity := ByIdentity(stats.samples);
    ghost var all := byIdentity;
    var matched: seq<Sample> := [];
    for i := 0 to |proc.samples|
      invariant byIdentity == Left(all, proc.samples[..i]) && matched == Matched(all, proc.samples[..i])
      invariant forall id :: id in byIdentity ==> byIdentity[id].id == id
    {
      OneMoreMatched(all, proc.samples, i);
      var sample := proc.samples[i];
      if sample.id in byIdentity {
        sample := Combine(sample, byIdentity[sample.id]);
        byIdentity := byIdentity - {sample.id};
      }
      matched := matched + [sample];
    }
    assert proc.samples[..|proc.samples|] == proc.samples;
    var rest := Remaining(byIdentity);
    var sorted := SortByThread(matched + rest);
    merged := Snapshot(sorted, EarlierTimestamp(stats.startedAt, proc.startedAt),
                       LaterTimestamp(stats.finishedAt, proc.finishedAt), METHOD);
  }

  /** Appends what is left of the map, in any order. */
  method Remaining(m: map<Identity, Sample>) returns (rest: seq<Sample>)
    requires forall id :: id in m ==> m[id].id == id
    ensures Enumerates(rest, m)
  {
    rest := [];
    var todo := m.Keys;
    while todo != {}
      invariant todo <= m.Keys && DistinctIds(rest)
      invariant forall i :: 0 <= i < |rest| ==> rest[i].id in m && rest[i].id !in todo && m[rest[i].id] == rest[i]
      invariant forall id :: id in m && id !in todo ==> m[id] in rest
    {
      var id :| id in todo;
      rest := rest + [m[id]];
      todo := todo - {id};
    }
  }

  method SortByThread(s: seq<Sample>) returns (sorted: seq<Sample>)
    ensures multiset(sorted) == multiset(s) && SortedByThread(sorted)
  {
    sorted := [];
    for i := 0 to |s|
      invariant multiset(sorted) == multiset(s[..i]) && SortedByThread(sorted)
    {
      assert s[..i + 1] == s[..i] + [s[i]];
      sorted := Insert(sorted, s[i]);
    }
    assert s[..|s|] == s;
  }

  method Insert(s: seq<Sample>, x: Sample) returns (r: seq<Sample>)
    requires SortedByThread(s)
    ensures multiset(r) == multiset(s) + multiset{x} && SortedByThread(r)
  {
    var at := |s|;
    while 0 < at && !NotAfter(s[at - 1], x)
      invariant 0 <= at <= |s| && forall i :: at <= i < |s| ==> !NotAfter(s[i], x)
    {
      at := at - 1;
    }
    InsertKeepsOrder(s, x, at);
    r := s[..at] + [x] + s[at..];
    assert s == s[..at] + s[at..];
  }

  function Inserted(s: seq<Sample>, x: Sample, at: nat): seq<Sample>
    requires at <= |s|
  {
    s[..at] + [x] + s[at..]
  }

  lemma InsertKeepsOrder(s: seq<Sample>, x: Sample, at: nat)
    requires SortedByThread(s) && at <= |s|
    requires forall i :: at <= i < |s| ==> !NotAfter(s[i], x)
    requires 0 < at ==> NotAfter(s[at - 1], x)
    ensures SortedByThread(Inserted(s, x, at))
  {
    var r := Inserted(s, x, at);
    forall i, j | 0 <= i < j < |r| ensures NotAfter(r[i], r[j]) {
      var a := if i < at then s[i] else if i == at then x else s[i - 1];
      var b := if j < at then s[j] else if j == at then x else s[j - 1];
      assert r[i] == a && r[j] == b;
    }
  }

  // ---------------------------------------------------------------- the outer join

  /** What the join holds for an identity of either source. */
  function Expected(stats: map<Identity, Sample>, procs: map<Identity, Sample>, id: Identity): Sample
    requires id in stats || id in procs
  {
    if id in procs then Match(stats, procs[id]) else stats[id]
  }

  ghost predicate Faithful(stats: map<Identity, Sample>, procs: map<Identity, Sample>, s: seq<Sample>) {
    forall x :: x in s ==> (x.id in stats || x.id in procs) && x == Expected(stats, procs, x.id)
  }

  ghost predicate Complete(stats: map<Identity, Sample>, procs: map<Identity, Sample>, s: seq<Sample>) {
    forall id :: id in stats || id in procs ==> Expected(stats, procs, id) in s
  }

  ghost predicate OuterJoin(stats: map<Identity, Sample>, procs: map<Identity, Sample>, s: seq<Sample>) {
    DistinctIds(s) && Faithful(stats, procs, s) && Complete(stats, procs, s)
  }

  lemma {:induction false} LeftOver(stats: map<Identity, Sample>, procs: seq<Sample>)
    ensures var left := Left(stats, procs);
      && (forall id :: id in left <==> id in stats && forall j :: 0 <= j < |procs| ==> procs[j].id != id)
      && forall id :: id in left ==> left[id] == stats[id]
  {
    if procs != [] { LeftOver(stats, procs[..|procs| - 1]); }
  }

  /** Of procfs samples that repeat an identity the first is matched, and the others stay as they are. */
  lemma {:induction false} MatchedAt(stats: map<Identity, Sample>, procs: seq<Sample>, i: nat)
    requires i < |procs|
    ensures Matched(stats, procs)[i] ==
            if exists j :: 0 <= j < i && procs[j].id == procs[i].id then procs[i] else Match(stats, procs[i])
  {
    var last := |procs| - 1;
    if i == last { LeftOver(stats, procs[..last]); } else { MatchedAt(stats, procs[..last], i); }
  }

  lemma ListedOnce(procs: seq<Sample>, i: nat)
    requires DistinctIds(procs) && i < |procs|
    ensures procs[i].id in ByIdentity(procs) && ByIdentity(procs)[procs[i].id] == procs[i]
  {
    var id := procs[i].id;
    assert procs[i] in procs;
    var k :| 0 <= k < |procs| && procs[k] == ByIdentity(procs)[id];
  }

  lemma MatchedFaithful(stats: map<Identity, Sample>, procs: seq<Sample>, i: nat)
    requires DistinctIds(procs) && i < |procs|
    ensures var x := Matched(stats, procs)[i];
            x.id == procs[i].id && x.id in ByIdentity(procs) && x == Expected(stats, ByIdentity(procs), x.id)
  {
    MatchedAt(stats, procs, i);
    ListedOnce(procs, i);
  }

  lemma MatchedIsJoin(stats: map<Identity, Sample>, procs: seq<Sample>)
    requires DistinctIds(procs)
    ensures DistinctIds(Matched(stats, procs))
    ensures var m, byProc := Matched(stats, procs), ByIdentity(procs);
      && (forall x :: x in m ==> x.id in byProc && x == Expected(stats, byProc, x.id))
      && forall id :: id in byProc ==> Expected(stats, byProc, id) in m
  {
    var m, byProc := Matched(stats, procs), ByIdentity(procs);
    forall i: nat | i < |m|
      ensures m[i].id == procs[i].id && m[i].id in byProc && m[i] == Expected(stats, byProc, m[i].id)
    {
      MatchedFaithful(stats, procs, i);
    }
    forall id | id in byProc ensures Expected(stats, byProc, id) in m {
      var k :| 0 <= k < |procs| && procs[k] == byProc[id];
      assert m[k].id == id;
    }
  }

  lemma RestIsNew(stats: map<Identity, Sample>, procs: seq<Sample>, rest: seq<Sample>)
    requires Enumerates(rest, Left(stats, procs))
    ensures forall x :: x in rest ==> x.id in stats && x.id !in ByIdentity(procs) && x == stats[x.id]
    ensures forall id :: id in stats && id !in ByIdentity(procs) ==> stats[id] in rest
  {
    var byProc := ByIdentity(procs);
    LeftOver(stats, procs);
    assert forall j :: 0 <= j < |procs| ==> procs[j] in procs;
    forall x | x in rest ensures x.id in stats && x.id !in byProc && x == stats[x.id] {
      var i :| 0 <= i < |rest| && rest[i] == x;
    }
    forall id | id in stats && id !in byProc ensures stats[id] in rest {
      assert Left(stats, procs)[id] in rest;
    }
  }

  lemma UnsortedIsJoin(stats: map<Identity, Sample>, procs: seq<Sample>, rest: seq<Sample>)
    requires DistinctIds(procs) && Enumerates(rest, Left(stats, procs))
    ensures OuterJoin(stats, ByIdentity(procs), Matched(stats, procs) + rest)
  {
    MatchedIsJoin(stats, procs);
    RestIsNew(stats, procs, rest);
    BothJoin(stats, ByIdentity(procs), Matched(stats, procs), rest);
  }

  lemma BothJoin(stats: map<Identity, Sample>, byProc: map<Identity, Sample>, m: seq<Sample>, rest: seq<Sample>)
    requires DistinctIds(m) && DistinctIds(rest)
    requires forall x :: x in m ==> x.id in byProc && x == Expected(stats, byProc, x.id)
    requires forall id :: id in byProc ==> Expected(stats, byProc, id) in m
    requires forall x :: x in rest ==> x.id in stats && x.id !in byProc && x == stats[x.id]
    requires forall id :: id in stats && id !in byProc ==> stats[id] in rest
    ensures OuterJoin(stats, byProc, m + rest)
  {
    var all := m + rest;
    forall i, j | 0 <= i < j < |all| ensures all[i].id != all[j].id {
      if i < |m| { assert all[i] in m; }
      if |m| <= j { assert all[j] in rest; }
    }
  }

  lemma {:induction false} AtMostOnce(s: seq<Sample>, x: Sample)
    requires DistinctIds(s)
    ensures multiset(s)[x] <= 1
  {
    if s != [] {
      var rest, last := s[..|s| - 1], s[|s| - 1];
      assert s == rest + [last];
      AtMostOnce(rest, x);
      if x == last { assert x !in rest; }
    }
  }

  lemma TwiceCounts(s: seq<Sample>, i: nat, j: nat)
    requires i < j < |s| && s[i] == s[j]
    ensures 2 <= multiset(s)[s[i]]
  {
    assert s == s[..j] + [s[j]] + s[j + 1..];
    assert s[..j][i] == s[i];
  }

  lemma SameElements(a: seq<Sample>, b: seq<Sample>)
    requires multiset(a) == multiset(b)
    ensures forall x :: x in a <==> x in b
  {
    forall x ensures x in a <==> x in b {
      assert x in multiset(a) <==> x in multiset(b);
    }
  }

  lemma PermutedDistinct(a: seq<Sample>, b: seq<Sample>)
    requires multiset(a) == multiset(b) && DistinctIds(b)
    ensures DistinctIds(a)
  {
    SameElements(a, b);
    forall i, j | 0 <= i < j < |a| ensures a[i].id != a[j].id {
      if a[i].id == a[j].id {
        SameId(b, a[i], a[j]);
        TwiceCounts(a, i, j);
        AtMostOnce(b, a[i]);
      }
    }
  }

  lemma SameId(s: seq<Sample>, x: Sample, y: Sample)
    requires DistinctIds(s) && x in s && y in s && x.id == y.id
    ensures x == y
  {
  }

  /** The merged scan holds every identity of either source exactly once, matched rows with taskstats delays
      and procfs state and schedstat, the others unchanged, exactly when procfs repeats no identity. */
  lemma MergeIsOuterJoin(stats: Snapshot, proc: Snapshot, merged: Snapshot)
    requires IsMerge(stats, proc, merged)
    ensures OuterJoin(ByIdentity(stats.samples), ByIdentity(proc.samples), merged.samples) <==>
            DistinctIds(proc.samples)
  {
    var byStats, procs := ByIdentity(stats.samples), proc.samples;
    var rest :| IsSorted(Matched(byStats, procs), rest, merged.samples) && Enumerates(rest, Left(byStats, procs));
    var all := Matched(byStats, procs) + rest;
    if DistinctIds(procs) {
      UnsortedIsJoin(byStats, procs, rest);
      PermutedJoin(byStats, ByIdentity(procs), merged.samples, all);
    }
    if DistinctIds(merged.samples) {
      PermutedDistinct(all, merged.samples);
      DistinctMatched(byStats, procs, rest);
    }
  }

  lemma DistinctMatched(stats: map<Identity, Sample>, procs: seq<Sample>, rest: seq<Sample>)
    requires DistinctIds(Matched(stats, procs) + rest)
    ensures DistinctIds(procs)
  {
    var all := Matched(stats, procs) + rest;
    forall i: nat | i < |procs| ensures all[i].id == procs[i].id { MatchedAt(stats, procs, i); }
  }

  lemma PermutedJoin(stats: map<Identity, Sample>, procs: map<Identity, Sample>, a: seq<Sample>, b: seq<Sample>)
    requires multiset(a) == multiset(b) && OuterJoin(stats, procs, b)
    ensures OuterJoin(stats, procs, a)
  {
    PermutedDistinct(a, b);
    SameElements(a, b);
  }

  // ---------------------------------------------------------------- the join, field by field

  /** A procfs sample with the delays of its taskstats sample, at a time between the two. */
  predicate TakesDelays(x: Sample, s: Sample, p: Sample) {
    && x.id == p.id && x.pid == p.pid && x.comm == p.comm && x.state == p.state && x.schedstat == p.schedstat
    && x.delays == s.delays && IsMiddle(s.timestamp, p.timestamp, x.timestamp)
  }

  /** A merged sample is made of what either scan last said about its thread. */
  predicate MadeOf(x: Sample, s: Option<Sample>, p: Option<Sample>) {
    match (s, p)
    case (Some(s), Some(p)) => TakesDelays(x, s, p)
    case (Some(s), None) => x == s
    case (None, Some(p)) => x == p
    case (None, None) => false
  }

  lemma MatchTakes(stats: map<Identity, Sample>, p: Sample)
    ensures if p.id in stats then TakesDelays(Match(stats, p), stats[p.id], p) else Match(stats, p) == p
  {
  }

  lemma ExpectedMade(stats: seq<Sample>, procs: seq<Sample>, id: Identity)
    requires id in ByIdentity(stats) || id in ByIdentity(procs)
    ensures MadeOf(Expected(ByIdentity(stats), ByIdentity(procs), id), LastSample(stats, id), LastSample(procs, id))
  {
    LastIsKept(stats, id);
    LastIsKept(procs, id);
    if id in ByIdentity(procs) { MatchTakes(ByIdentity(stats), ByIdentity(procs)[id]); }
  }

  /** With distinct procfs identities: the threads of either scan, each once. One seen by both carries the
      taskstats delays and the procfs state, schedstat and name; one seen by a single scan is unchanged. */
  lemma MergedFields(stats: Snapshot, proc: Snapshot, merged: Snapshot)
    requires IsMerge(stats, proc, merged) && DistinctIds(proc.samples)
    ensures DistinctIds(merged.samples)
    ensures forall x :: x in merged.samples ==>
              MadeOf(x, LastSample(stats.samples, x.id), LastSample(proc.samples, x.id))
    ensures forall id :: LastSample(stats.samples, id).Some? || LastSample(proc.samples, id).Some? ==>
              exists x :: x in merged.samples && x.id == id
  {
    var byStats, byProc := ByIdentity(stats.samples), ByIdentity(proc.samples);
    MergeIsOuterJoin(stats, proc, merged);
    forall x | x in merged.samples
      ensures MadeOf(x, LastSample(stats.samples, x.id), LastSample(proc.samples, x.id))
    {
      ExpectedMade(stats.samples, proc.samples, x.id);
    }
    forall id | LastSample(stats.samples, id).Some? || LastSample(proc.samples, id).Some?
      ensures exists x :: x in merged.samples && x.id == id
    {
      LastIsKept(stats.samples, id);
      LastIsKept(proc.samples, id);
      assert Expected(byStats, byProc, id) in merged.samples && Expected(byStats, byProc, id).id == id;
    }
  }

  /** Whatever identities are repeated: the first procfs sample of a thread takes the delays. */
  lemma FirstTakesDelays(stats: Snapshot, proc: Snapshot, merged: Snapshot, i: nat) returns (x: Sample)
    requires IsMerge(stats, proc, merged) && i < |proc.samples|
    requires forall j :: 0 <= j < i ==> proc.samples[j].id != proc.samples[i].id
    ensures x in merged.samples && MadeOf(x, LastSample(stats.samples, proc.samples[i].id), Some(proc.samples[i]))
  {
    var byStats, procs := ByIdentity(stats.samples), proc.samples;
    var rest :| IsSorted(Matched(byStats, procs), rest, merged.samples) && Enumerates(rest, Left(byStats, procs));
    x := Matched(byStats, procs)[i];
    MatchedAt(byStats, procs, i);
    MatchTakes(byStats, procs[i]);
    LastIsKept(stats.samples, procs[i].id);
    assert x in Matched(byStats, procs) + rest;
    SameElements(merged.samples, Matched(byStats, procs) + rest);
  }

  /** Where a merged sample comes from, whatever identities are repeated. */
  predicate FromSources(stats: seq<Sample>, procs: seq<Sample>, x: Sample) {
    || x in stats || x in procs
    || exists p, s :: p in procs && s in stats && TakesDelays(x, s, p)
  }

  lemma MergedFromSources(stats: Snapshot, proc: Snapshot, merged: Snapshot, x: Sample)
    requires IsMerge(stats, proc, merged) && x in merged.samples
    ensures FromSources(stats.samples, proc.samples, x)
  {
    var byStats, procs := ByIdentity(stats.samples), proc.samples;
    var rest :| IsSorted(Matched(byStats, procs), rest, merged.samples) && Enumerates(rest, Left(byStats, procs));
    SameElements(merged.samples, Matched(byStats, procs) + rest);
    LeftOver(byStats, procs);
    if x in Matched(byStats, procs) {
      var i: nat :| i < |procs| && Matched(byStats, procs)[i] == x;
      MatchedAt(byStats, procs, i);
      MatchTakes(byStats, procs[i]);
      if x != procs[i] { assert procs[i] in procs && byStats[procs[i].id] in stats.samples; }
    }
  }

  /** If both scans bracket their sample times, the merged scan brackets its own; away from the zero time,
      which a midpoint could hit, it is a bracketed scan in full. */
  lemma MergeKeepsBrackets(stats: Snapshot, proc: Snapshot, merged: Snapshot, last: int)
    requires IsMerge(stats, proc, merged) && Bracketed(stats, last) && Bracketed(proc, last)
    ensures merged.startedAt == Min(stats.startedAt, proc.startedAt)
    ensures merged.finishedAt == Max(stats.finishedAt, proc.finishedAt)
    ensures forall x :: x in merged.samples ==> merged.startedAt <= x.timestamp <= merged.finishedAt
    ensures 0 < merged.startedAt || merged.finishedAt < 0 ==> Bracketed(merged, last)
  {
    forall x | x in merged.samples ensures merged.startedAt <= x.timestamp <= merged.finishedAt {
      MergedFromSources(stats, proc, merged, x);
    }
  }

  /** The result does not depend on the order of the map when threads differ in TID or start ticks. */
  lemma MergeIsUnique(stats: Snapshot, proc: Snapshot, a: Snapshot, b: Snapshot)
    requires IsMerge(stats, proc, a) && IsMerge(stats, proc, b) && DistinctIds(proc.samples)
    requires forall x, y :: x in a.samples && y in a.samples && x != y ==>
               x.id.tid != y.id.tid || x.id.ticks != y.id.ticks
    ensures a == b
  {
    var byStats, byProc := ByIdentity(stats.samples), ByIdentity(proc.samples);
    MergeIsOuterJoin(stats, proc, a);
    MergeIsOuterJoin(stats, proc, b);
    forall x ensures x in a.samples <==> x in b.samples {
      SameMembers(byStats, byProc, a.samples, b.samples, x);
      SameMembers(byStats, byProc, b.samples, a.samples, x);
    }
    SortedUnique(a.samples, b.samples);
  }

  lemma SameMembers(stats: map<Identity, Sample>, procs: map<Identity, Sample>, a: seq<Sample>, b: seq<Sample>,
                    x: Sample)
    requires OuterJoin(stats, procs, a) && OuterJoin(stats, procs, b)
    ensures x in a ==> x in b
  {
    if x in a {
      var i :| 0 <= i < |a| && a[i] == x;
      assert x.id in stats.Keys + procs.Keys;
    }
  }

  predicate Strict(s: seq<Sample>) {
    forall i, j :: 0 <= i < j < |s| ==> NotAfter(s[i], s[j]) && !NotAfter(s[j], s[i])
  }

  lemma SortedUnique(a: seq<Sample>, b: seq<Sample>)
    requires SortedByThread(a) && SortedByThread(b) && DistinctIds(a) && DistinctIds(b)
    requires forall x :: x in a <==> x in b
    requires forall x, y :: x in a && y in a && x != y ==> x.id.tid != y.id.tid || x.id.ticks != y.id.ticks
    ensures a == b
  {
    forall i, j | 0 <= i < j < |a| ensures !NotAfter(a[j], a[i]) {
      assert NotAfter(a[i], a[j]) && a[i] in a && a[j] in a && a[i] != a[j];
    }
    forall i, j | 0 <= i < j < |b| ensures !NotAfter(b[j], b[i]) {
      assert NotAfter(b[i], b[j]) && b[i] in b && b[j] in b && b[i] != b[j];
    }
    StrictUnique(a, b);
  }

  lemma {:induction false} StrictUnique(a: seq<Sample>, b: seq<Sample>)
    requires Strict(a) && Strict(b) && forall x :: x in a <==> x in b
    ensures a == b
  {
    assert a != [] ==> a[0] in b;
    assert b != [] ==> b[0] in a;
    if a != [] {
      assert a[0] == b[0];
      forall x ensures x in a[1..] <==> x in b[1..] {
        assert x in a <==> x in b;
        if x in a[1..] { assert x != a[0] && x in a; }
        if x in b[1..] { assert x != b[0] && x in b; }
      }
      StrictUnique(a[1..], b[1..]);
      assert a == [a[0]] + a[1..] && b == [b[0]] + b[1..];
    }
  }
}
