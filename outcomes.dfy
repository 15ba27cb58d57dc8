/** What a computation of the core ends in: a value, or the Python exception
    raised instead of it. The pages catch these exceptions and show a message. */
module Outcomes {

  /** The exceptions the arithmetic of the pages can raise. */
  datatype PyError =
    | ZeroDivisionError   // a Python float divided by zero
    | LinAlgError         // the linear solver found the matrix singular

  /** A value, or the exception that was raised in its place. */
  datatype Result<+T> = Ok(value: T) | Raised(error: PyError)

  datatype Option<+T> = None | Some(value: T)
}
