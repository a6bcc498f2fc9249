/** Optional values and error-carrying results, used wherever the PHP code
    returns `null` or throws a ValidationException / LogicException. */
module Wrappers {

  datatype Option<+T> = None | Some(value: T)

  /** A value, or the error that prevented computing it. */
  datatype Result<+T, +E> = Ok(value: T) | Err(error: E)

  /** Outcome of a check or an import step: `Pass`, or the error that was thrown. */
  datatype Outcome<+E> = Pass | Fail(error: E)
}
