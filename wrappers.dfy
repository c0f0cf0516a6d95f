/** Failure-compatible wrappers shared by every module, and the Python
    exceptions the pipeline can raise. */
module Wrappers {

  datatype Option<+T> = None | Some(value: T)

  datatype Result<+T, +E> = Ok(value: T) | Err(error: E) {

    predicate IsFailure() {
      Err?
    }

    function PropagateFailure<U>(): Result<U, E>
      requires Err?
    {
      Err(error)
    }

    function Extract(): T
      requires Ok?
    {
      value
    }
  }

  /** The exceptions the modelled code raises, named after their Python classes. */
  datatype Exception =
    | FileNotFoundError(path: string)   // dataset path does not exist
    | KeyError(key: string)             // dict subscript with a missing key
    | TypeError                         // subscripting or iterating a value that does not support it
    | AttributeError                    // `.get` on a value that is not a dict
}
