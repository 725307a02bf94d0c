/**
 * Java-level primitives shared by the model: bytes as bit patterns, 64-bit
 * longs with two's-complement wrap-around, null as `Option`, and a thrown
 * exception as the `Fail`/`Err` case of an outcome.
 */
module JavaTypes {

  /** A Java `byte`: only its bit pattern matters to the model. */
  type byte = bv8

  const MinLong: int := -0x8000_0000_0000_0000
  const MaxLong: int := 0x7fff_ffff_ffff_ffff
  const LongModulus: int := 0x1_0000_0000_0000_0000

  /** A Java `long`. */
  type long = x: int | MinLong <= x <= MaxLong

  /**
   * Java's `a + b` on longs: the long whose low-order 64 bits are those of
   * the exact sum, which is the exact sum whenever that fits.
   */
  function AddLong(a: long, b: long): (r: long)
    ensures (r - (a + b)) % LongModulus == 0
    ensures MinLong <= a + b <= MaxLong ==> r == a + b
  {
    var s := a + b;
    if s > MaxLong then s - LongModulus
    else if s < MinLong then s + LongModulus
    else s
  }

  function Min(a: int, b: int): (m: int)
    ensures m <= a && m <= b && (m == a || m == b)
  {
    if a <= b then a else b
  }

  /** A reference that may be null. */
  datatype Option<+T> = None | Some(value: T)

  /** The outcome of a call that returns nothing: normal return, or the exception it throws. */
  datatype Outcome = Pass | Fail(error: string)

  /** The outcome of a call that returns a value or throws. */
  datatype Result<+T> = Ok(value: T) | Err(error: string)
}
