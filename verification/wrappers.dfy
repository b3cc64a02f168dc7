/** Option and Result values, and the exceptions the deployment tool raises. */
module Wrappers {

  datatype Option<+T> = None | Some(value: T)

  /** The Python exception classes the modelled code raises or lets escape. */
  datatype Exc =
    | ValueError
    | RuntimeError
    | FileNotFoundError
    | CalledProcessError   // a CLI command exited with a non-zero status
    | ApiError             // a cloud SDK call raised, or its operation finished with an error
    | KeyError
    | IndexError
    | TypeError
    | AttributeError
    | EOFError             // input() found no more lines
    | UnboundLocalError

  /**
   * A value, or the exception that was raised instead.  A Python function
   * that returns None returns `Result<()>` here.
   */
  datatype Result<+T> = Ok(value: T) | Err(error: Exc) {
    predicate IsFailure() { Err? }
    function PropagateFailure<U>(): Result<U>
      requires Err?
    {
      Err(error)
    }
    function Extract(): T
      requires Ok?
    {
      value
    }
  }
}
