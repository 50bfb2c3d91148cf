/** The report grid: window `w` covers `[Start(w), Start(w) + interval)`.
    Times are nanoseconds counted from Go's zero `time.Time`, so `IsZero` is `== 0`. */
module Windows {

  function Max(a: int, b: int): int { if a < b then b else a }

  function Min(a: int, b: int): int { if b < a then b else a }

  /** Some member of a set: the next key of a Go map iteration. */
  ghost function Any<T>(s: set<T>): (x: T)
    requires s != {}
    ensures x in s
  {
    var x :| x in s; x
  }

  datatype Grid = Grid(origin: int, interval: int) {

    predicate Valid() { 0 < interval }

    function Start(w: int): int { origin + w * interval }

    function End(w: int): int { Start(w) + interval }

    /** Window of an instant; everything up to the origin belongs to window 0. */
    function Index(at: int): (w: nat)
      requires Valid()
      ensures origin <= at ==> Start(w) <= at < End(w)
      ensures at <= origin ==> w == 0
    {
      if at <= origin then 0
      else
        var w := (at - origin) / interval;
        assert (at - origin) == w * interval + (at - origin) % interval;
        w
    }

    /** Nanoseconds of `[lo, hi)` inside window `w`. */
    function Overlap(lo: int, hi: int, w: int): int {
      Max(0, Min(hi, End(w)) - Max(lo, Start(w)))
    }

    /** The open windows, numbered `floor` and up, that `[lo, hi)` reaches. */
    function Touched(floor: nat, lo: int, hi: int): (ws: set<int>)
      requires Valid()
      ensures forall w :: w in ws <==> floor <= w && 0 < Overlap(lo, hi, w)
    {
      forall w | floor <= w && 0 < Overlap(lo, hi, w) ensures w <= Index(hi) {
        if Index(hi) < w { Ordered(Index(hi), w); }
        Ordered(0, w);
      }
      set w | floor <= w <= Index(hi) && 0 < Overlap(lo, hi, w)
    }

    lemma Adjacent(w: int)
      ensures End(w) == Start(w + 1)
    {
    }

    lemma Ordered(v: int, w: int)
      requires Valid()
      ensures v < w ==> End(v) <= Start(w)
      ensures v <= w ==> Start(v) <= Start(w)
    {
      if v < w {
        assert (w - v - 1) * interval >= 0;
        assert w * interval == v * interval + interval + (w - v - 1) * interval;
      }
    }

    /** An instant lies in one window only. */
    lemma IndexUnique(at: int, w: nat)
      requires Valid() && Start(w) <= at < End(w)
      ensures Index(at) == w
    {
      Ordered(0, w);
      Ordered(w, Index(at));
      Ordered(Index(at), w);
    }

    /** The end of an instant's window is the start of the next one. */
    lemma NextBoundary(at: int)
      requires Valid() && origin <= at
      ensures at < End(Index(at)) == Start(Index(at) + 1)
      ensures End(Index(at)) == Start(Index(End(Index(at))))
    {
      IndexUnique(End(Index(at)), Index(at) + 1);
    }
  }
}
