/** Small failure-carrying datatypes shared by the model. */
module Results {

  /** `None` plays the part of JavaScript's `undefined` wherever a value may be absent. */
  datatype Option<+T> = None | Some(value: T)

  /** The value of an operation that either completes or throws. */
  datatype Result<+T, +E> = Success(value: T) | Failure(error: E)

  /** An operation that completes without a value of interest, or throws. */
  datatype Outcome<+E> = Pass | Fail(error: E)
}
