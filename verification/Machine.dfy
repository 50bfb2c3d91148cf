/** Machine integers, and the two facts of multiplication that sharing and scaling rest on. */
module Machine {
  type byte = x: int | 0 <= x < 0x100
  type uint16 = x: int | 0 <= x < 0x1_0000
  type uint32 = x: int | 0 <= x < 0x1_0000_0000
  type uint64 = x: int | 0 <= x < 0x1_0000_0000_0000_0000
  type int64 = x: int | -0x8000_0000_0000_0000 <= x < 0x8000_0000_0000_0000

  const MAX_UINT64: uint64 := 0xFFFF_FFFF_FFFF_FFFF
  const MAX_INT64: int64 := 0x7FFF_FFFF_FFFF_FFFF
  const MIN_INT64: int64 := -0x8000_0000_0000_0000

  predicate FitsInt64(n: int) { MIN_INT64 <= n <= MAX_INT64 }

  lemma Scale(x: int, y: int, m: int)
    requires x <= y && 0 <= m
    ensures x * m <= y * m
  {
    assert (y - x) * m == y * m - x * m;
  }

  lemma Cancel(x: int, y: int, m: int)
    requires x * m < y * m && 0 < m
    ensures x < y
  {
    assert (y - x) * m == y * m - x * m;
  }
}
