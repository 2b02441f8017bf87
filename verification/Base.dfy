/** Small types shared by every model. */
module Base {

  datatype Option<+T> = None | Some(value: T)

  newtype Byte = b: int | 0 <= b < 256

  /** One past the largest `u64`. */
  const U64: nat := 0x1_0000_0000_0000_0000
  const U64_MAX: nat := U64 - 1

  /** Rust's `u64::saturating_add`. */
  function SatAdd(a: nat, b: nat): (r: nat)
    ensures a + b <= U64_MAX ==> r == a + b
    ensures r <= U64_MAX
  {
    if a + b <= U64_MAX then a + b else U64_MAX
  }

  /** Rust's `u64::saturating_sub`. */
  function SatSub(a: nat, b: nat): (r: nat)
    ensures b <= a ==> r + b == a
    ensures r <= a
  {
    if b <= a then a - b else 0
  }

  function Min(a: nat, b: nat): nat { if a <= b then a else b }

  function Max(a: nat, b: nat): nat { if a <= b then b else a }
}
