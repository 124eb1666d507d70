/**
 * Shift-and-mask helpers standing in for the `bitfield!` macro's
 * `bit_range`/`set_bit_range` and `bit`/`set_bit` accessors on a `u8`.
 * A field is named by its mask (the bits it occupies); the value written
 * into a multi-bit field is already shifted to the field's position.
 */
module Bits {

  /** `a` and `b` agree on every bit outside `mask`. */
  predicate SameOutside(a: bv8, b: bv8, mask: bv8) {
    a & !mask == b & !mask
  }

  /** Clears the bits of `mask` in `b` and ORs in the bits of `shifted` that fall in `mask`. */
  function Insert(b: bv8, mask: bv8, shifted: bv8): (r: bv8)
    ensures r & mask == shifted & mask
    ensures SameOutside(b, r, mask)
  {
    (b & !mask) | (shifted & mask)
  }

  /** True when the single bit `mask` is set in `b`. */
  function Flag(b: bv8, mask: bv8): bool {
    b & mask != 0
  }

  /** Sets (`v`) or clears (`!v`) the single bit `mask` of `b`. */
  function WithFlag(b: bv8, mask: bv8, v: bool): (r: bv8)
    requires mask != 0 && mask & (mask - 1) == 0  // a single bit
    ensures Flag(r, mask) == v
    ensures SameOutside(b, r, mask)
  {
    if v then b | mask else b & !mask
  }
}
