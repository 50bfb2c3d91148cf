/** Sorting the rows of a window for emission. */
module RowSort {
  import opened Model
  import opened RowOrder

  /** Least identity of a non-empty set, scanned in any order. */
  method LeastIdentity(k: Key, ids: set<Identity>) returns (least: Identity)
    requires ids != {}
    ensures least in ids && forall x :: x in ids && x != least ==> Less(k, least, x)
  {
    least :| least in ids;
    var rest := ids - {least};
    while rest != {}
      invariant rest <= ids - {least} && least in ids
      invariant forall x :: x in ids && x !in rest && x != least ==> Less(k, least, x)
    {
      var x :| x in rest;
      rest := rest - {x};
      if Less(k, x, least) {
        least := x;
      }
    }
  }

  method SortRows(k: Key, stats: map<Identity, Row>) returns (rows: seq<Row>)
    ensures rows == Rows(k, stats)
  {
    rows := [];
    ghost var done: seq<Identity> := [];
    var rest := stats.Keys;
    while rest != {}
      invariant rest <= stats.Keys
      invariant |done| == |rows|
      invariant forall i :: 0 <= i < |done| ==> done[i] in stats && done[i] !in rest && rows[i] == stats[done[i]]
      invariant forall x :: x in stats.Keys && x !in rest ==> x in done
      invariant forall i, x :: 0 <= i < |done| && x in rest ==> Less(k, done[i], x)
      invariant Sorted(k, done)
    {
      var id := LeastIdentity(k, rest);
      rows := rows + [stats[id]];
      done := done + [id];
      rest := rest - {id};
    }
    OrderUnique(k, done, Order(k, stats.Keys));
  }
}
