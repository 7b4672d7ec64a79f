/**
 * The fixed-width integers of the contracts (Rust `u8`, `u32`, `u64`, `i128`)
 * as subset types of `int`, and the arithmetic they are compiled with.
 *
 * The contracts are built with overflow checks on, so an `i128` or `u32`
 * operation whose exact result does not fit traps: the checked operations
 * below return `None` exactly there. Rust's `/` on signed integers truncates
 * toward zero, which `Quot` models (Dafny's own `/` is Euclidean).
 */
module Numeric {
  import opened Outcomes

  const U32_LIMIT: int := 0x1_0000_0000
  const U64_LIMIT: int := 0x1_0000_0000_0000_0000
  const I128_MIN: int := -0x8000_0000_0000_0000_0000_0000_0000_0000
  const I128_MAX: int := 0x7fff_ffff_ffff_ffff_ffff_ffff_ffff_ffff

  type byte = x: int | 0 <= x < 0x100
  type u32 = x: int | 0 <= x < 0x1_0000_0000
  type u64 = x: int | 0 <= x < 0x1_0000_0000_0000_0000
  type i128 = x: int | -0x8000_0000_0000_0000_0000_0000_0000_0000 <= x <= 0x7fff_ffff_ffff_ffff_ffff_ffff_ffff_ffff

  predicate InI128(x: int) { I128_MIN <= x <= I128_MAX }

  predicate InU32(x: int) { 0 <= x < U32_LIMIT }

  /** `a + b` on `i128`; `None` where the addition overflows. */
  function AddI128(a: i128, b: i128): (r: Option<i128>)
    ensures r.Some? <==> InI128(a + b)
    ensures r.Some? ==> r.value == a + b
  {
    if InI128(a + b) then Some(a + b) else None
  }

  /** `a - b` on `i128`; `None` where the subtraction overflows. */
  function SubI128(a: i128, b: i128): (r: Option<i128>)
    ensures r.Some? <==> InI128(a - b)
    ensures r.Some? ==> r.value == a - b
  {
    if InI128(a - b) then Some(a - b) else None
  }

  /** `a * b` on `i128`; `None` where the multiplication overflows. */
  function MulI128(a: i128, b: i128): (r: Option<i128>)
    ensures r.Some? <==> InI128(a * b)
    ensures r.Some? ==> r.value == a * b
  {
    if InI128(a * b) then Some(a * b) else None
  }

  /** `a + b` on `u32`; `None` where the addition overflows. */
  function AddU32(a: u32, b: u32): (r: Option<u32>)
    ensures r.Some? <==> InU32(a + b)
    ensures r.Some? ==> r.value == a + b
  {
    if InU32(a + b) then Some(a + b) else None
  }

  /** Rust's signed division by a positive divisor: the quotient rounded toward zero. */
  function Quot(a: int, d: int): (q: int)
    requires d > 0
    ensures a >= 0 ==> 0 <= q * d <= a < q * d + d
    ensures a < 0 ==> q * d - d < a <= q * d <= 0
  {
    if a >= 0 then
      DivBounds(a, d);
      a / d
    else
      DivBounds(-a, d);
      -((-a) / d)
  }

  lemma DivBounds(a: nat, d: int)
    requires d > 0
    ensures 0 <= (a / d) * d <= a < (a / d) * d + d
  {
    assert a == (a / d) * d + a % d;
  }
}
