/** Option and Result, and the Python exception kinds the modelled code raises. */
module Wrappers {

  datatype Option<+T> = None | Some(value: T)

  /** The exceptions that escape the modelled operations. */
  datatype Error =
    | TypeError          // arithmetic or comparison on None, abstract class instantiation, calling None
    | AttributeError     // attribute lookup on None or on a class lacking the attribute
    | ValueError         // rejected argument
    | ZeroDivisionError  // true division by zero

  datatype Result<+T> = Ok(value: T) | Err(error: Error) {
    predicate IsFailure() { Err? }

    function PropagateFailure<U>(): Result<U>
      requires Err?
    {
      Err(error)
    }

    function Extract(): T
      requires Ok?
    {
      value
    }
  }

  /** The outcome of a procedure that returns nothing of interest but may raise. */
  datatype Outcome = Pass | Fail(error: Error)
}
