/** Option and Result wrappers shared by the backtest modules. */
module Optional {

  /** A value that may be absent. In the indicator series, `None` stands for
      the not-a-number entries of the warm-up bars. */
  datatype Option<+T> = None | Some(value: T)

  /** Either a value or an error message. */
  datatype Result<+T, +E> = Ok(value: T) | Err(error: E)
}
