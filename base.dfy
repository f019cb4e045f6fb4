/**
 * Shared vocabulary of the order domain: the JVM integer widths the source
 * uses, the clock and money representations, and the outcome types that
 * stand in for the exceptions the source throws.
 */
module Base {

  /** Kotlin `Int`: a signed 32-bit integer. */
  type Int32 = x: int | -0x8000_0000 <= x < 0x8000_0000

  /** Kotlin `Long`: a signed 64-bit integer. */
  type Int64 = x: int | -0x8000_0000_0000_0000 <= x < 0x8000_0000_0000_0000

  const TWO_TO_THE_32: int := 0x1_0000_0000

  /**
   * A point in time. The source reads the system clock; here every clock
   * read is a parameter, so an instant is just a number.
   */
  type Instant = int

  /** `BigDecimal` amounts: exact arithmetic, no rounding. */
  type Money = real

  datatype Option<+T> = None | Some(value: T)

  /**
   * The two exception classes the core throws: `require` raises
   * IllegalArgumentException, explicit state checks IllegalStateException.
   */
  datatype Error = IllegalArgument(message: string) | IllegalState(message: string)

  /** The value of an operation that returns a value or throws. */
  datatype Result<+T> = Ok(value: T) | Err(error: Error)

  /** The value of an operation that returns nothing or throws. */
  datatype Outcome = Pass | Fail(error: Error)

  /**
   * Two's-complement wrap-around of an integer into the `Int` range: what
   * the JVM does when an `Int` addition overflows.
   */
  function WrapInt32(x: int): (r: Int32)
    ensures (x - r) % TWO_TO_THE_32 == 0
    ensures -0x8000_0000 <= x < 0x8000_0000 ==> r == x
  {
    (x + 0x8000_0000) % TWO_TO_THE_32 - 0x8000_0000
  }
}
