/** Optional values, results and the exceptions the level library raises. */
module Wrappers {

  datatype Option<+T> = None | Some(value: T)

  /** The Python exceptions the modelled code can raise. */
  datatype Error =
    | IndexError       // a list or string index out of range
    | ValueError       // int() of text that is not a decimal integer, a zero slice step
    | TypeError        // an operation applied to a value of the wrong type
    | ConnectionError  // set_connections given a list whose length is not 2
    | PositionError    // set_position on an object without (enough) position pairs

  /** The value a call returns, or the exception it raises. */
  datatype Result<+T> = Ok(value: T) | Err(error: Error) {
    predicate IsFailure() { Err? }

    function PropagateFailure<U>(): (r: Result<U>)
      requires Err?
    {
      Err(error)
    }

    function Extract(): (r: T)
      requires Ok?
    {
      value
    }
  }
}
