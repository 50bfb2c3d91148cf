/** `Accumulator.Observe` may visit the map of previous samples in any order. */
module SampleOrder {
  import opened Windows
  import opened Model
  import opened Snapshots
  import opened SampleTimeline

  predicate Reaches(g: Grid, floor: nat, v: Visit, w: int) { floor <= w && 0 < g.Overlap(v.lo, v.hi, w) }

  /** One visit, seen from one window. */
  lemma ApplyAt(g: Grid, ws: map<int, Window>, floor: nat, v: Visit, w: int)
    requires g.Valid()
    ensures w in Apply(g, ws, floor, v) <==> w in ws || Reaches(g, floor, v, w)
    ensures WindowAt(Apply(g, ws, floor, v), w) ==
            if Reaches(g, floor, v, w) then Touch(g, w, WindowAt(ws, w), v) else WindowAt(ws, w)
  {
  }

  /** A visit for one thread leaves the rows of the others. */
  lemma RowsApart(g: Grid, w: int, win: Window, u: Visit, v: Visit)
    requires u.sample.id != v.sample.id && 0 < g.Overlap(u.lo, u.hi, w)
    ensures RowFor(g, w, Touch(g, w, win, u), v.sample) == RowFor(g, w, win, v.sample)
  {
  }

  lemma TouchesCommute(g: Grid, w: int, win: Window, u: Visit, v: Visit)
    requires u.sample.id != v.sample.id
    requires 0 < g.Overlap(u.lo, u.hi, w) && 0 < g.Overlap(v.lo, v.hi, w)
    ensures Touch(g, w, Touch(g, w, win, u), v) == Touch(g, w, Touch(g, w, win, v), u)
  {
    RowsApart(g, w, win, u, v);
    RowsApart(g, w, win, v, u);
    UpdatesCommute(win.stats, u.sample.id, Touch(g, w, win, u).stats[u.sample.id],
                   v.sample.id, Touch(g, w, win, v).stats[v.sample.id]);
  }

  lemma UpdatesCommute(stats: map<Identity, Row>, i: Identity, a: Row, j: Identity, b: Row)
    requires i != j
    ensures stats[i := a][j := b] == stats[j := b][i := a]
  {
  }

  /** Visits for different threads commute. */
  lemma AppliesCommute(g: Grid, ws: map<int, Window>, floor: nat, u: Visit, v: Visit)
    requires g.Valid() && u.sample.id != v.sample.id
    ensures Apply(g, Apply(g, ws, floor, u), floor, v) == Apply(g, Apply(g, ws, floor, v), floor, u)
  {
    var a, b := Apply(g, ws, floor, u), Apply(g, ws, floor, v);
    var l, r := Apply(g, a, floor, v), Apply(g, b, floor, u);
    forall w ensures (w in l <==> w in r) && WindowAt(l, w) == WindowAt(r, w) {
      ApplyAt(g, ws, floor, u, w);
      ApplyAt(g, ws, floor, v, w);
      ApplyAt(g, a, floor, v, w);
      ApplyAt(g, b, floor, u, w);
      if Reaches(g, floor, u, w) && Reaches(g, floor, v, w) {
        TouchesCommute(g, w, WindowAt(ws, w), u, v);
      }
    }
    SameWindows(l, r, NEW_WINDOW);
  }

  ghost predicate AllFor(vs: seq<Visit>, id: Identity) { forall i :: 0 <= i < |vs| ==> vs[i].sample.id == id }

  lemma {:induction false} PastOne(g: Grid, ws: map<int, Window>, floor: nat, u: Visit, vs: seq<Visit>, id: Identity)
    requires g.Valid() && AllFor(vs, id) && u.sample.id != id
    ensures ApplyAll(g, Apply(g, ws, floor, u), floor, vs) == Apply(g, ApplyAll(g, ws, floor, vs), floor, u)
  {
    if vs != [] {
      var rest := vs[..|vs| - 1];
      PastOne(g, ws, floor, u, rest, id);
      AppliesCommute(g, ApplyAll(g, ws, floor, rest), floor, u, vs[|vs| - 1]);
    }
  }

  lemma {:induction false} PastAll(g: Grid, ws: map<int, Window>, floor: nat, us: seq<Visit>, vs: seq<Visit>,
                                   a: Identity, b: Identity)
    requires g.Valid() && AllFor(us, a) && AllFor(vs, b) && a != b
    ensures ApplyAll(g, ApplyAll(g, ws, floor, us), floor, vs) == ApplyAll(g, ApplyAll(g, ws, floor, vs), floor, us)
  {
    if us != [] {
      var rest := us[..|us| - 1];
      PastAll(g, ws, floor, rest, vs, a, b);
      PastOne(g, ApplyAll(g, ws, floor, rest), floor, us[|us| - 1], vs, b);
    }
  }

  /** A thread's visits are all its own. */
  lemma OwnVisits(p: Sample, current: map<Identity, Sample>, snap: Snapshot)
    requires p.id in current ==> current[p.id].id == p.id
    ensures AllFor(VisitsFor(p, current, snap), p.id)
  {
  }

  ghost predicate Keyed(m: map<Identity, Sample>) { forall id :: id in m ==> m[id].id == id }

  lemma {:induction false} AnySampleFirst(s: Sampler, ids: set<Identity>, id: Identity, current: map<Identity, Sample>,
                                          snap: Snapshot)
    requires s.Valid() && Keyed(current) && ids <= s.previous.Keys && id in ids
    ensures BookAll(s, ids, current, snap) == BookAll(BookOne(s, id, current, snap), ids - {id}, current, snap)
    decreases |ids|
  {
    var first := Any(ids);
    if first != id {
      var a, b := BookOne(s, first, current, snap), BookOne(s, id, current, snap);
      AnySampleFirst(a, ids - {first}, id, current, snap);
      AnySampleFirst(b, ids - {id}, first, current, snap);
      OwnVisits(s.previous[first], current, snap);
      OwnVisits(s.previous[id], current, snap);
      PastAll(s.grid, s.windows, s.nextWindow, VisitsFor(s.previous[first], current, snap),
              VisitsFor(s.previous[id], current, snap), first, id);
      assert ids - {first} - {id} == ids - {id} - {first};
    }
  }
}
