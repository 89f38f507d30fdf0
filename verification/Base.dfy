/** Optional values, results with an error, and the time line shared by every module. */
module Base {

  /** Instants and durations are counts of nanoseconds. */
  type Time = int

  const SECOND: Time := 1_000_000_000

  datatype Option<+T> = None | Some(value: T)

  datatype Result<+T, +E> = Ok(value: T) | Err(error: E)

  function Min(a: int, b: int): int {
    if a < b then a else b
  }
}
