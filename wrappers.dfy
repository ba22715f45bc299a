/** Failure-compatible wrappers shared by every module of the model. */
module Wrappers {

  /** `None` stands for Go's nil (a nil map, slice or pointer). */
  datatype Option<+T> = None | Some(value: T)

  /** The error half of a Go `(value, error)` pair. */
  datatype Result<+T, +E> = Ok(value: T) | Err(error: E) {
    predicate IsFailure() { Err? }

    function PropagateFailure<U>(): Result<U, E>
      requires Err?
    {
      Err(error)
    }

    function Extract(): T
      requires Ok?
    {
      value
    }
  }

  /** The kinds of error that the decoders return. Only whether a decode
      fails is observable to the batch driver; the kind is informative. */
  datatype Error =
    | SyntaxError     // strconv.ErrSyntax, or json.SyntaxError
    | RangeError      // strconv.ErrRange
    | TypeError       // json.UnmarshalTypeError
}
