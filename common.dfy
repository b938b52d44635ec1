/** Value types shared by every module: Java's nullable references, its
    32- and 64-bit integers, and java.util.UUID. */
module Common {

  /** A Java reference that may be null: `None` stands for null. */
  datatype Option<+T> = None | Some(value: T)

  /** The exceptions the modelled code can raise. */
  datatype Failure = NullPointer(what: string)

  /** A call that either returns a value or throws. */
  datatype Result<+T> = Ok(value: T) | Err(error: Failure)

  newtype int32 = x: int | -0x8000_0000 <= x < 0x8000_0000
  newtype int64 = x: int | -0x8000_0000_0000_0000 <= x < 0x8000_0000_0000_0000

  /** java.util.UUID, which holds two longs. */
  datatype Uuid = Uuid(mostSignificantBits: int64, leastSignificantBits: int64)

  /** Java's two's-complement `int` arithmetic: the int32 congruent to x modulo 2^32. */
  function WrapInt32(x: int): (r: int32)
    ensures (r as int - x) % 0x1_0000_0000 == 0
    ensures -0x8000_0000 <= x < 0x8000_0000 ==> r as int == x
  {
    ((x + 0x8000_0000) % 0x1_0000_0000 - 0x8000_0000) as int32
  }
}
