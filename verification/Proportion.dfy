/** Sharing a counter delta in proportion to wall time (internal/collector/accumulator.go). */
module Proportion {
  import opened Machine
  import opened Windows

  const TWO64: int := 0x1_0000_0000_0000_0000
  const MAX_DURATION: int := 0x7fff_ffff_ffff_ffff

  predicate Uint64(x: int) { 0 <= x < TWO64 }

  /** `bits.Mul64`: the 128-bit product, high and low word. */
  function Mul64(x: int, y: int): (r: (int, int))
    requires Uint64(x) && Uint64(y)
    ensures Uint64(r.0) && Uint64(r.1) && r.0 * TWO64 + r.1 == x * y
  {
    ProductRange(x, y);
    (x * y / TWO64, x * y % TWO64)
  }

  lemma ProductRange(x: int, y: int)
    requires Uint64(x) && Uint64(y)
    ensures 0 <= x * y / TWO64 < TWO64
  {
    Scale(0, x, y);
    Scale(x, TWO64 - 1, y);
    var p := x * y;
    assert 0 <= p < TWO64 * TWO64;
    assert 0 <= p / TWO64 < TWO64;
  }

  /** `bits.Div64`: panics unless the divisor exceeds the high word. */
  function Div64(high: int, low: int, y: int): (r: (int, int))
    requires Uint64(high) && Uint64(low) && Uint64(y)
    requires high < y
    ensures Uint64(r.0) && 0 <= r.1 < y && r.0 * y + r.1 == high * TWO64 + low
  {
    var n := high * TWO64 + low;
    QuotientRange(n, y);
    (n / y, n % y)
  }

  lemma QuotientRange(n: int, y: int)
    requires 0 < y && 0 <= n < y * TWO64
    ensures 0 <= n / y < TWO64
    ensures n / y * y + n % y == n
  {
    Cancel(n / y, TWO64, y);
    Cancel(-1, n / y, y);
  }

  /** `multiplyDivide`: for a fraction of the whole it never traps, and returns the floor. */
  function MultiplyDivide(value: int, numerator: int, denominator: int): (q: int)
    requires Uint64(value) && Uint64(denominator) && 0 <= numerator <= denominator
    ensures 0 <= q <= value
    ensures 0 < denominator ==> q * denominator <= value * numerator < q * denominator + denominator
    ensures numerator == 0 ==> q == 0
    ensures numerator == denominator && 0 < denominator ==> q == value
  {
    if value == 0 || numerator == 0 || denominator == 0 then 0
    else
      var (high, low) := Mul64(value, numerator);
      HighFits(value, numerator, denominator, high, low);
      var (quotient, remainder) := Div64(high, low, denominator);
      QuotientBounds(value, numerator, denominator, quotient, remainder);
      quotient
  }

  /** The 128-by-64 division cannot trap. */
  lemma HighFits(value: int, numerator: int, denominator: int, high: int, low: int)
    requires Uint64(value) && Uint64(high) && Uint64(low) && 0 < numerator <= denominator
    requires high * TWO64 + low == value * numerator
    ensures high < denominator
  {
    Scale(value, TWO64 - 1, numerator);
    Cancel(high, denominator, TWO64);
  }

  lemma QuotientBounds(value: int, numerator: int, denominator: int, q: int, rest: int)
    requires 0 <= value && 0 < numerator <= denominator && 0 <= rest < denominator
    requires q * denominator + rest == value * numerator
    ensures q <= value && (numerator == denominator ==> q == value)
  {
    Scale(numerator, denominator, value);
    Cancel(q, value + 1, denominator);
    if numerator == denominator { Cancel(value - 1, q, denominator); }
  }

  /** Later pieces start where earlier ones end: the subtraction of two shares never underflows. */
  lemma Monotone(value: int, a: int, b: int, whole: int)
    requires Uint64(value) && Uint64(whole) && 0 <= a <= b <= whole
    ensures MultiplyDivide(value, a, whole) <= MultiplyDivide(value, b, whole)
  {
    var p, q := MultiplyDivide(value, a, whole), MultiplyDivide(value, b, whole);
    if 0 < whole {
      Scale(a, b, value);
      FloorsOrdered(p, q, value * a, value * b, whole);
    }
  }

  lemma FloorsOrdered(p: int, q: int, x: int, y: int, whole: int)
    requires 0 < whole && x <= y && p * whole <= x && y < q * whole + whole
    ensures p <= q
  {
    Cancel(p, q + 1, whole);
  }

  /** A piece differs from its exact share by less than one unit. */
  lemma PieceError(value: int, a: int, b: int, whole: int)
    requires Uint64(value) && Uint64(whole) && 0 <= a <= b <= whole && 0 < whole
    ensures var piece := MultiplyDivide(value, b, whole) - MultiplyDivide(value, a, whole);
            value * (b - a) - whole < piece * whole < value * (b - a) + whole
  {
    var p, q := MultiplyDivide(value, a, whole), MultiplyDivide(value, b, whole);
    assert (q - p) * whole == q * whole - p * whole;
    assert value * (b - a) == value * b - value * a;
  }

  /** `nanosecondsDuration`: saturates at the largest duration. */
  function NanosecondsDuration(value: int): (d: int)
    requires Uint64(value)
    ensures 0 <= d <= MAX_DURATION && (value <= MAX_DURATION ==> d == value)
  {
    if MAX_DURATION < value then MAX_DURATION else value
  }

  // ---------------------------------------------------------------- pieces of a partition

  /** `time.Duration` from `start` to a later instant, saturating like `time.Time.Sub`. */
  function Elapsed(start: int, t: int): (d: int)
    ensures 0 <= d <= MAX_DURATION
  {
    Max(0, Min(MAX_DURATION, t - start))
  }

  /** Share of a delta accrued by instant `t` of the gap `[start, end)`. */
  function ShareBy(value: uint64, start: int, end: int, t: int): (q: uint64)
    ensures q <= value
    ensures t <= start ==> q == 0
    ensures start < end <= t ==> q == value
  {
    if end <= start then 0
    else MultiplyDivide(value, Elapsed(start, Min(t, end)), Elapsed(start, end))
  }

  lemma ShareMonotone(value: uint64, start: int, end: int, t: int, u: int)
    requires t <= u
    ensures ShareBy(value, start, end, t) <= ShareBy(value, start, end, u)
  {
    if start < end {
      Monotone(value, Elapsed(start, Min(t, end)), Elapsed(start, Min(u, end)), Elapsed(start, end));
    }
  }

  /** What `[lo, hi)` of the gap `[start, end)` gets of a delta. */
  function Piece(value: uint64, start: int, end: int, lo: int, hi: int): (p: uint64)
    requires lo <= hi
    ensures p <= value
  {
    ShareMonotone(value, start, end, lo, hi);
    ShareBy(value, start, end, hi) - ShareBy(value, start, end, lo)
  }

  /** A piece differs from its exact wall-time share by less than one unit. */
  lemma PieceIsFair(value: uint64, start: int, end: int, lo: int, hi: int)
    requires start <= lo <= hi <= end && start < end && end - start <= MAX_DURATION
    ensures var whole, piece := end - start, Piece(value, start, end, lo, hi);
            value * (hi - lo) - whole < piece * whole < value * (hi - lo) + whole
  {
    PieceError(value, lo - start, hi - start, end - start);
  }

  /** Pieces of the first `n` windows of the grid. */
  function Pieces(g: Grid, value: uint64, start: int, end: int, n: nat): int
    requires g.Valid()
  {
    if n == 0 then 0 else Pieces(g, value, start, end, n - 1) + Piece(value, start, end, g.Start(n - 1), g.End(n - 1))
  }

  /** Over any partition into windows the pieces telescope: nothing is lost and nothing counted twice. */
  lemma {:induction false} PiecesTelescope(g: Grid, value: uint64, start: int, end: int, n: nat)
    requires g.Valid()
    ensures Pieces(g, value, start, end, n) ==
            ShareBy(value, start, end, g.Start(n)) - ShareBy(value, start, end, g.origin)
  {
    if n != 0 {
      PiecesTelescope(g, value, start, end, n - 1);
      assert g.Start(n) == g.End(n - 1);
    }
  }
}
