/** Shapes of Go values that several packages share. */
module Go {

  datatype Option<T> = None | Some(value: T)

  /** A Go result pair `(T, error)`: `err` is `None` for a nil error and
      `Some(m)` for an error whose `Error()` text is `m`. */
  datatype Ret<T> = Ret(value: T, err: Option<string>)

  /** How a Go call ends: it returns a value, or it panics with a message. */
  datatype Run<T> = Returned(value: T) | Panicked(message: string)

  /** Go's `int` on a 64-bit platform. */
  const MinInt64: int := -0x8000_0000_0000_0000
  const MaxInt64: int := 0x7FFF_FFFF_FFFF_FFFF
  newtype Int64 = x: int | -0x8000_0000_0000_0000 <= x < 0x8000_0000_0000_0000

  /** Two's-complement wrap-around of a mathematical integer into 64 bits,
      as Go's `+` on `int` does. */
  function Wrap64(x: int): (r: Int64)
    ensures MinInt64 <= x <= MaxInt64 ==> r as int == x
    ensures (r as int - x) % 0x1_0000_0000_0000_0000 == 0
  {
    var m := (x - MinInt64) % 0x1_0000_0000_0000_0000;
    (m + MinInt64) as Int64
  }
}
