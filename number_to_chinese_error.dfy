/** The two ways an integer rendering can fail. */
module NumberToChineseErrors {

  /** Overflow: the value is too large; Underflow: the value is too small. */
  datatype NumberToChineseError = Overflow | Underflow
}
