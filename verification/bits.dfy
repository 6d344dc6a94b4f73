/** Flag tests on packed integer fields. */
module Bits {

  /** Whether the single-bit `flag` (1, 2, 4, ...) is set in `x`, i.e. Java's
      `(x & flag) != 0`. Dafny's `/` rounds towards negative infinity for a
      positive divisor, which is an arithmetic shift, so this agrees with the
      two's-complement test for negative `x` as well. */
  predicate HasFlag(x: int, flag: nat)
    requires flag > 0
  {
    (x / flag) % 2 == 1
  }
}
