/** Option and Result, the two failure-carrying shapes the chart code returns. */
module Wrappers {

  datatype Option<+T> = None | Some(value: T)

  datatype Result<+T, +E> = Ok(value: T) | Err(error: E)

  /** The unit value carried by a successful `Result<(), E>`. */
  datatype Unit = Unit
}
