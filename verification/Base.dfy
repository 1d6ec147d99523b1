/** Vocabulary shared by every module of the model. */
module Base {

  datatype Option<+T> = None | Some(value: T)

  /** How one API call ends. `Refused`: an error and nothing written.
      `Lost`: the write took effect but the caller still sees an error. */
  datatype Fault = Fine | Refused | Lost

  /** Nanoseconds since the epoch; zero is Go's zero time. */
  type Time = nat

  const SECOND: int := 1_000_000_000
  const INT64_MAX: int := 0x7fff_ffff_ffff_ffff
  const INT64_MIN: int := -0x8000_0000_0000_0000

  predicate FitsInt64(x: int) {
    INT64_MIN <= x <= INT64_MAX
  }

  /** Go's time.Duration. */
  type Duration = x: int | FitsInt64(x)

  /** Two's-complement wrap-around of Go's int64 arithmetic. */
  function Wrap64(x: int): (r: Duration)
    ensures FitsInt64(x) ==> r == x
  {
    (x - INT64_MIN) % 0x1_0000_0000_0000_0000 + INT64_MIN
  }

  function Max(x: int, y: int): int {
    if x < y then y else x
  }
}
