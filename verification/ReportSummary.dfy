/** What a sampled report's quality says of its rows (`finalizeThrough`, internal/collector/accumulator.go). */
module ReportSummary {
  import opened Model
  import opened SampleTimeline

  function BearingDelays(rows: seq<Row>): nat {
    if rows == [] then 0 else BearingDelays(rows[..|rows| - 1]) + if rows[|rows| - 1].HasDelays() then 1 else 0
  }

  function Resets(rows: seq<Row>): int {
    if rows == [] then 0 else Resets(rows[..|rows| - 1]) + rows[|rows| - 1].delay.resets
  }

  /** Some delay-bearing row has this version. */
  ghost predicate HasVersion(rows: seq<Row>, version: nat) {
    exists row :: row in rows && row.HasDelays() && row.delay.version == version
  }

  ghost predicate NoDelays(rows: seq<Row>) { forall row :: row in rows ==> !row.HasDelays() }

  /** The least and the greatest version among delay-bearing rows; both zero when there are none. */
  ghost predicate VersionsBetween(rows: seq<Row>, least: nat, greatest: nat) {
    && (forall row :: row in rows && row.HasDelays() ==> least <= row.delay.version <= greatest)
    && (if NoDelays(rows) then least == greatest == 0 else HasVersion(rows, least) && HasVersion(rows, greatest))
  }

  lemma SummaryStep(q: Quality, rows: seq<Row>)
    requires rows != []
    ensures Summarize(q, rows) == SummarizeRow(Summarize(q, rows[..|rows| - 1]), rows[|rows| - 1])
    ensures forall row :: row in rows <==> row in rows[..|rows| - 1] || row == rows[|rows| - 1]
  {
    assert rows == rows[..|rows| - 1] + [rows[|rows| - 1]];
  }

  /** A report counts its delay-bearing rows and their resets, and calls accounting enabled when every
      row that knows says so. */
  lemma {:induction false} SummaryCounts(q: Quality, rows: seq<Row>)
    requires q.taskstats == TaskstatsQuality(false, 0, 0, 0, 0, false, false)
    ensures var t := Summarize(q, rows).taskstats;
      && t.threads == BearingDelays(rows) && t.resets == Resets(rows)
      && (t.available <==> exists row :: row in rows && row.HasDelays())
      && (t.enabledKnown <==> exists row :: row in rows && row.delay.enabledKnown)
      && (t.enabled <==> t.enabledKnown && forall row :: row in rows && row.delay.enabledKnown ==> row.delay.enabled)
  {
    if rows != [] {
      SummaryCounts(q, rows[..|rows| - 1]);
      SummaryStep(q, rows);
    }
  }

  function WithSchedstat(rows: seq<Row>): nat {
    if rows == [] then 0 else WithSchedstat(rows[..|rows| - 1]) + if 0 < rows[|rows| - 1].sched.statPairs then 1 else 0
  }

  function SchedstatResets(rows: seq<Row>): int {
    if rows == [] then 0 else SchedstatResets(rows[..|rows| - 1]) + rows[|rows| - 1].sched.statResets
  }

  /** ... and the rows with a schedstat pair, and the resets of all. */
  lemma {:induction false} SchedstatCounts(q: Quality, rows: seq<Row>)
    requires q.schedstat == SchedstatQuality(false, 0, 0)
    ensures var t := Summarize(q, rows).schedstat;
      && t.threads == WithSchedstat(rows) && t.resets == SchedstatResets(rows)
      && (t.available <==> exists row :: row in rows && 0 < row.sched.statPairs)
  {
    if rows != [] {
      SchedstatCounts(q, rows[..|rows| - 1]);
      SummaryStep(q, rows);
    }
  }

  lemma VersionsStep(rest: seq<Row>, last: Row, rows: seq<Row>, least: nat, greatest: nat)
    requires VersionsBetween(rest, least, greatest) && forall row :: row in rows <==> row in rest || row == last
    requires forall row :: row in rows && row.HasDelays() ==> 0 < row.delay.version
    ensures var v := last.delay.version;
            VersionsBetween(rows, if last.HasDelays() && (least == 0 || v < least) then v else least,
                            if last.HasDelays() && greatest < v then v else greatest)
  {
    assert last in rows;
    forall v | HasVersion(rest, v) ensures HasVersion(rows, v) {
      var row :| row in rest && row.HasDelays() && row.delay.version == v;
      assert row in rows;
    }
    if last.HasDelays() { assert HasVersion(rows, last.delay.version); }
  }

  /** The report's versions are the least and the greatest of its delay-bearing rows. */
  lemma {:induction false} SummaryVersions(q: Quality, rows: seq<Row>)
    requires q.taskstats == TaskstatsQuality(false, 0, 0, 0, 0, false, false)
    requires forall row :: row in rows && row.HasDelays() ==> 0 < row.delay.version
    ensures var t := Summarize(q, rows).taskstats; VersionsBetween(rows, t.versionMin, t.versionMax)
  {
    if rows != [] {
      var rest, last := rows[..|rows| - 1], rows[|rows| - 1];
      SummaryStep(q, rows);
      SummaryVersions(q, rest);
      var t := Summarize(q, rest).taskstats;
      VersionsStep(rest, last, rows, t.versionMin, t.versionMax);
    }
  }
}
