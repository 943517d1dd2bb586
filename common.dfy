/** Failure-carrying results shared by the modules of this model. */
module Wrappers {

  datatype Option<+T> = None | Some(value: T)

  /** An operation that either produces a value or fails with an error,
      standing for a raised exception in the modelled code. */
  datatype Result<+T, +E> = Ok(value: T) | Err(error: E)
}

/** Unsigned 32-bit machine words, as C's `uint32_t` and Python's
    `struct` format `'L'` see them, and the wrapping arithmetic of C. */
module UInt32 {

  const TWO_32: int := 0x1_0000_0000

  type U32 = x: int | 0 <= x < 0x1_0000_0000

  type Byte = x: int | 0 <= x < 0x100

  predicate IsU32(x: int) {
    0 <= x < TWO_32
  }

  /** `a + b` on `uint32_t`: the mathematical sum reduced modulo 2^32. */
  function Add32(a: U32, b: U32): (r: U32)
    ensures a + b < TWO_32 ==> r == a + b
    ensures a + b >= TWO_32 ==> r == a + b - TWO_32
  {
    (a + b) % TWO_32
  }

  /** `a - b` on `uint32_t`: the mathematical difference reduced modulo 2^32. */
  function Sub32(a: U32, b: U32): (r: U32)
    ensures b <= a ==> r == a - b
    ensures a < b ==> r == a - b + TWO_32
    ensures Add32(b, r) == a
  {
    (a - b) % TWO_32
  }

  /** `a * b` on `uint32_t`: the mathematical product reduced modulo 2^32. */
  function Mul32(a: U32, b: U32): U32
  {
    (a * b) % TWO_32
  }
}
