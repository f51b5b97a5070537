/** Fixed-width unsigned integers of the on-chain program, and Rust's
    `checked_*` arithmetic on them. A checked operation answers `None`
    exactly where Rust's `checked_*` answers `None`; the program always
    `unwrap`s those, so `None` later becomes an aborted transaction. */
module Ints {

  const TWO_8: int := 0x100
  const TWO_16: int := 0x1_0000
  const TWO_32: int := 0x1_0000_0000
  const TWO_64: int := 0x1_0000_0000_0000_0000
  const TWO_128: int := 0x1_0000_0000_0000_0000_0000_0000_0000_0000

  const U64_MAX: int := TWO_64 - 1
  const U128_MAX: int := TWO_128 - 1

  type U8 = x: int | 0 <= x < TWO_8
  type U16 = x: int | 0 <= x < TWO_16
  type U32 = x: int | 0 <= x < TWO_32
  type U64 = x: int | 0 <= x < TWO_64
  type U128 = x: int | 0 <= x < TWO_128

  /** Rust's `Option`, usable with `:-`. */
  datatype Option<+T> = None | Some(value: T) {
    predicate IsFailure() {
      None?
    }

    function PropagateFailure<U>(): Option<U>
      requires None?
    {
      None
    }

    function Extract(): T
      requires Some?
    {
      value
    }
  }

  /** `u64::checked_add` */
  function CheckedAdd64(a: U64, b: U64): (r: Option<U64>)
    ensures r.Some? <==> a + b <= U64_MAX
    ensures r.Some? ==> r.value == a + b
  {
    if a + b <= U64_MAX then Some(a + b) else None
  }

  /** `u64::checked_mul` */
  function CheckedMul64(a: U64, b: U64): (r: Option<U64>)
    ensures r.Some? <==> a * b <= U64_MAX
    ensures r.Some? ==> r.value == a * b
  {
    if a * b <= U64_MAX then Some(a * b) else None
  }

  /** `u16` subtraction with overflow checks on: it panics below zero. */
  function CheckedSub16(a: U16, b: U16): (r: Option<U16>)
    ensures r.Some? <==> b <= a
    ensures r.Some? ==> r.value + b == a
  {
    if b <= a then Some(a - b) else None
  }

  /** `u128::checked_mul` */
  function CheckedMul128(a: U128, b: U128): (r: Option<U128>)
    ensures r.Some? <==> a * b <= U128_MAX
    ensures r.Some? ==> r.value == a * b
  {
    if a * b <= U128_MAX then Some(a * b) else None
  }

  /** `u128::checked_div`: only a zero divisor fails. */
  function CheckedDiv128(a: U128, b: U128): (r: Option<U128>)
    ensures r.Some? <==> b != 0
    ensures r.Some? ==> r.value * b <= a < (r.value + 1) * b
  {
    if b == 0 then None else Some(a / b)
  }

  /** The cast `x as u64` from `u128`: keeps the low 64 bits. */
  function TruncateU64(x: U128): (r: U64)
    ensures x <= U64_MAX ==> r == x
    ensures exists k: nat :: x == k * TWO_64 + r
  {
    var r := x % TWO_64;
    assert x == (x / TWO_64) * TWO_64 + r;
    r
  }
}
