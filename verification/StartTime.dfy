/** Start times in procfs ticks (internal/backend/ebpf/identity.go). */
module StartTime {
  import opened Machine
  import opened Wrappers

  const NANOSECONDS: uint64 := 1_000_000_000

  predicate WholeTicks(rate: uint64) { rate != 0 && NANOSECONDS % rate == 0 }

  /** The tick in which a start time falls, seen from a time namespace. */
  function StartTicks(start: uint64, offset: int64, rate: uint64): Option<uint64> {
    if WholeTicks(rate) && 0 <= start + offset <= MAX_UINT64 then
      TickFits(start + offset, rate);
      Some((start + offset) / (NANOSECONDS / rate))
    else None
  }

  lemma TickLength(rate: uint64)
    requires WholeTicks(rate)
    ensures 0 < NANOSECONDS / rate && NANOSECONDS / rate * rate == NANOSECONDS
  {
  }

  lemma Quotient(n: nat, d: nat)
    requires 0 < d
    ensures 0 <= n / d <= n && n / d * d <= n < (n / d + 1) * d
  {
    var q := n / d;
    assert n == q * d + n % d;
    assert (q + 1) * d == q * d + d;
    if n < q { Scale(n + 1, q, d); }
  }

  lemma TickFits(n: nat, rate: uint64)
    requires WholeTicks(rate) && n <= MAX_UINT64
    ensures NANOSECONDS / rate != 0 && 0 <= n / (NANOSECONDS / rate) <= MAX_UINT64
  {
    TickLength(rate);
    Quotient(n, NANOSECONDS / rate);
  }

  /** `procStartTimeTicks`; every operation stays within its machine type, also for the least offset. */
  method ProcStartTimeTicks(start: uint64, offset: int64, rate: uint64) returns (ticks: uint64, ok: bool)
    ensures ok == StartTicks(start, offset, rate).Some? == (WholeTicks(rate) && 0 <= start + offset <= MAX_UINT64)
    ensures ticks == if ok then StartTicks(start, offset, rate).value else 0
  {
    if rate == 0 || NANOSECONDS % rate != 0 {
      return 0, false;
    }
    TickLength(rate);
    var adjusted: uint64 := start;
    if offset < 0 {
      var above: int64 := offset + 1;
      var opposite: int64 := -above;
      var delta: uint64 := opposite + 1;
      if adjusted < delta {
        return 0, false;
      }
      adjusted := adjusted - delta;
    } else {
      var delta: uint64 := offset;
      if adjusted > MAX_UINT64 - delta {
        return 0, false;
      }
      adjusted := adjusted + delta;
    }
    TickFits(adjusted, rate);
    ticks, ok := adjusted / (NANOSECONDS / rate), true;
  }

  /** The tick contains the adjusted start time. */
  lemma TickContains(start: uint64, offset: int64, rate: uint64)
    requires StartTicks(start, offset, rate).Some?
    ensures var t, length := StartTicks(start, offset, rate).value, NANOSECONDS / rate;
            t * length <= start + offset < (t + 1) * length
  {
    TickLength(rate);
    Quotient(start + offset, NANOSECONDS / rate);
  }

  /** Later starts never get earlier ticks. */
  lemma TicksMonotone(a: uint64, b: uint64, offset: int64, rate: uint64)
    requires StartTicks(a, offset, rate).Some? && StartTicks(b, offset, rate).Some? && a <= b
    ensures StartTicks(a, offset, rate).value <= StartTicks(b, offset, rate).value
  {
    TickLength(rate);
    var length := NANOSECONDS / rate;
    var x, y := (a + offset) / length, (b + offset) / length;
    Quotient(a + offset, length);
    Quotient(b + offset, length);
    if y + 1 <= x { Scale(y + 1, x, length); }
  }

  // ---------------------------------------------------------------- the namespace offset

  /** Both bounds on seconds: Go's division truncates toward zero. */
  const MAX_SECONDS: int64 := MAX_INT64 / NANOSECONDS

  /** The checks and the sum of `parseBoottimeOffset`, on the two numbers of its line: every step fits
      its machine type. */
  function BoottimeOffset(seconds: int64, nanoseconds: int64): Option<int64> {
    if nanoseconds < 0 || NANOSECONDS <= nanoseconds then None
    else if MAX_SECONDS < seconds || seconds < -MAX_SECONDS then None
    else
      var whole: int64, room: int64 := seconds * NANOSECONDS, MAX_INT64 - nanoseconds;
      if 0 < nanoseconds && room < whole then None else Some(whole + nanoseconds)
  }

  /** An accepted offset is the exact sum; of the sums that fit, only those of the least second are refused. */
  lemma OffsetExact(seconds: int64, nanoseconds: int64)
    ensures var offset, sum := BoottimeOffset(seconds, nanoseconds), seconds * NANOSECONDS + nanoseconds;
      && (offset.Some? ==> offset.value == sum)
      && (offset.Some? <==> 0 <= nanoseconds < NANOSECONDS && FitsInt64(sum) && seconds != -MAX_SECONDS - 1)
  {
  }

  /** The least `int64` is refused, although its seconds and nanoseconds are well formed and it fits. */
  lemma LeastOffsetRefused()
    ensures (-MAX_SECONDS - 1) * NANOSECONDS + 145_224_192 == MIN_INT64
    ensures BoottimeOffset(-MAX_SECONDS - 1, 145_224_192).None?
  {
  }
}
