/** Failure-carrying datatypes shared by every module of the model. */
module Wrappers {

  /** A value that may be absent; `None` stands for a Python exception
      whose only content is that the value could not be produced. */
  datatype Option<+T> = None | Some(value: T)

  /** A value or an error describing why it could not be produced. */
  datatype Result<+R, +E> = Success(value: R) | Failure(error: E)
}
