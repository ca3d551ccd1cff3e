/** The optional-value and result datatypes shared by every module of the model. */
module Basics {

  /** An optional value, as Python's `None`-or-value arguments are used. */
  datatype Option<T> = None | Some(value: T) {
    function GetOr(default: T): T {
      if Some? then value else default
    }
  }

  /** The outcome of an operation whose Python counterpart may raise. */
  datatype Result<T, E> = Ok(value: T) | Err(error: E)
}
