/** Optional values and results with an error, shared by the generator and the transport models. */
module Wrappers {

  /** A value that may be absent: Python's `Optional[T]`. */
  datatype Option<+T> = None | Some(value: T)

  /** The outcome of an operation that raises in the source: either a value or the
      exception it raises. Usable with `:-`, which passes an error on unchanged. */
  datatype Result<+T, +E> = Ok(value: T) | Err(error: E) {
    predicate IsFailure() {
      Err?
    }

    function PropagateFailure<U>(): Result<U, E>
      requires Err?
    {
      Err(error)
    }

    function Extract(): T
      requires Ok?
    {
      value
    }
  }
}
