/** Shared vocabulary: optional values, results with an error, outcomes of
    a call that may throw, and Java's fixed-width integer types. */
module Common {

  /** A value that may be absent (a Java reference that may be null). */
  datatype Option<+T> = None | Some(value: T) {
    function GetOr(default: T): T {
      if Some? then value else default
    }
  }

  /** Either a value, or the exception that was thrown instead. */
  datatype Result<+T, +E> = Success(value: T) | Failure(error: E)

  /** Completion of a `void` Java method: normally, or by throwing. */
  datatype Outcome<+E> = Pass | Fail(error: E)

  /** Java `int`. */
  type Int32 = x: int | -0x8000_0000 <= x <= 0x7FFF_FFFF

  /** Java `long`. */
  type Int64 = x: int | -0x8000_0000_0000_0000 <= x <= 0x7FFF_FFFF_FFFF_FFFF

  const LONG_MAX: Int64 := 0x7FFF_FFFF_FFFF_FFFF
  const LONG_MIN: Int64 := -0x8000_0000_0000_0000
}
