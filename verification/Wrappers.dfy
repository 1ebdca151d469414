/** Small failure-compatible wrappers shared by the model.
- Option<T> stands for a reference that may be null: `None` is null, `Some(v)` a resolved value.
- Result<T, E> stands for a call that either returns a value or throws an exception.
 */
module Wrappers {

  /** A possibly-null value. */
  datatype Option<+T> = None | Some(value: T)

  /** A call that returns `value` or throws `error`. */
  datatype Result<+T, +E> = Success(value: T) | Failure(error: E)
}
