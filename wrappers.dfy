/** Optional values, results with an error, and the Java exceptions the model makes explicit. */
module Wrappers {

  datatype Option<T> = None | Some(value: T)

  datatype Result<T, E> = Success(value: T) | Failure(error: E)

  /** The runtime exceptions the modelled Java code can raise. */
  datatype Error =
    | ClassCastException       // a candidate move cast to MoveTicket that is not one
    | NullPointerException     // a put into a map field that was never created
}
