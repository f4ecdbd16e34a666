/** The optional-value datatype used throughout the model. A `None` result of a
    function that models Python code stands for "the Python code raises here". */
module Wrappers {

  datatype Option<+T> = None | Some(value: T) {

    /** The value, or `default` when there is none (Python's `x if x is not None else default`). */
    function GetOr(default: T): T
    {
      match this
      case Some(v) => v
      case None => default
    }
  }
}
