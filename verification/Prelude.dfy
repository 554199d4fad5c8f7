/** Small shared types: optional values, Go's fixed-width integers, and durations. */
module Prelude {

  datatype Option<+T> = None | Some(value: T)

  newtype int32 = x: int | -0x8000_0000 <= x < 0x8000_0000
  newtype int64 = x: int | -0x8000_0000_0000_0000 <= x < 0x8000_0000_0000_0000

  // Durations and clock readings are counted in nanoseconds, as in Go's time package.
  const SECOND: int := 1_000_000_000
  const MINUTE: int := 60 * SECOND

  // A configured number of seconds, or the default where the field is unset or negative.
  function SecondsOr(configured: int32, default: int): int {
    if configured <= 0 then default else configured as int * SECOND
  }

  function CountOr(configured: int32, default: int): int {
    if configured <= 0 then default else configured as int
  }
}
