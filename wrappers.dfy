/** Optional values and error-or-value results, used for pandas' NaN ("not a
    number yet") and for the exceptions the trading bot's code raises. */
module Wrappers {

  /** `None` stands for a missing value: Python's `None`, or a NaN entry of a
      pandas column. */
  datatype Option<+T> = None | Some(value: T)

  /** A value, or the exception the Python code would raise instead. */
  datatype Result<+T, +E> = Ok(value: T) | Err(error: E)
}
