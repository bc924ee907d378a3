/** Small value types shared by every module of the model. */
module Common {

  /** Kotlin's nullable `T?` and Java's nullable references. */
  datatype Option<+T> = None | Some(value: T)

  const INT_MIN: int := -0x8000_0000
  const INT_MAX: int := 0x7FFF_FFFF

  /** A JVM `int` (Kotlin `Int`). */
  type Int32 = x: int | INT_MIN <= x <= INT_MAX
}
