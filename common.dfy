/** Types shared by the accessory models. */
module Common {

  datatype Option<T> = None | Some(value: T)

  /** A press classified by the external button library. `Other` stands for any
      event code that a callback's `switch` does not name. */
  datatype ButtonEvent = SinglePress | DoublePress | TriplePress | LongPress | Other(code: int)

  /** C's `/` on int for a positive divisor: the quotient truncated toward 0
      (Dafny's own `/` rounds down, which differs for negative dividends). */
  function TruncDiv(a: int, b: int): (q: int)
    requires b > 0
    ensures a >= 0 ==> q * b <= a < (q + 1) * b
    ensures a < 0 ==> q <= 0 && (q - 1) * b < a <= q * b
  {
    if a >= 0 then a / b else -((-a) / b)
  }
}
