/** Stock result types and the clock's unit. */
module Base {
  datatype Option<+T> = None | Some(value: T) {
    function GetOr(default: T): T {
      match this
      case Some(v) => v
      case None => default
    }
  }

  datatype Result<+T, +E> = Ok(value: T) | Err(error: E)

  /** A `timestamptz`: microseconds since some fixed instant. */
  type Time = int

  const SECOND: int := 1_000_000
  const MILLISECOND: int := 1_000

  const INT32_MIN: int := -0x8000_0000
  const INT32_MAX: int := 0x7fff_ffff

  predicate InInt32(v: int) {
    INT32_MIN <= v <= INT32_MAX
  }

  function Max(a: int, b: int): int {
    if a < b then b else a
  }

  function Min(a: int, b: int): int {
    if a < b then a else b
  }
}
