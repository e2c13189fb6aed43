/** Go's `int64`, the type of `time.Duration` and of the example's amounts. */
module Int64 {
  const TWO63: int := 0x8000_0000_0000_0000
  const TWO64: int := 0x1_0000_0000_0000_0000

  /** The `int64` an arithmetic result becomes. */
  function Wrap64(x: int): (r: int)
    ensures -TWO63 <= r < TWO63
    ensures -TWO63 <= x < TWO63 ==> r == x
  {
    var m := x % TWO64;
    if m < TWO63 then m else m - TWO64
  }
}
