/** Small failure-carrying datatypes shared by the model. */
module Wrappers {

  /** A value that may be absent; PHP's `null` is `None`. */
  datatype Option<+T> = None | Some(value: T)

  /** Either a value or an error; the model's stand-in for a thrown exception. */
  datatype Result<+T, +E> = Success(value: T) | Failure(error: E)

  /** The outcome of a call into an external service: it returned a value,
      or it raised an exception carrying a message. */
  datatype Call<+T> = Returned(value: T) | Threw(detail: string)
}
