/** Optional values and outcomes shared by every component of the model. */
module Wrappers {
  datatype Option<+T> = None | Some(value: T)

  /** An outcome; with `:-` the first error ends the computation. */
  datatype Result<+T, +E> = Ok(value: T) | Err(error: E) {
    predicate IsFailure() {
      Err?
    }

    function PropagateFailure<U>(): Result<U, E>
      requires Err?
    {
      Err(error)
    }

    function Extract(): T
      requires Ok?
    {
      value
    }
  }
}
