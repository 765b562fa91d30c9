/** Plain result datatypes used across the model: `None` stands for a C# null. */
module Wrappers {
  datatype Option<+T> = None | Some(value: T)

  datatype Result<+R, +E> = Success(value: R) | Failure(error: E)

  datatype Outcome<+E> = Pass | Fail(error: E)
}

/** The exceptions the wrapper raises or lets through, as values. */
module Errors {
  datatype Error =
    | ZeroTypeRejected  // the wrapper's own "0 is not allowed as a type" exception
    | NullReference     // a member reached through a null reference
    | TransportFailure  // the MQTT library's subscribe/unsubscribe call failed
}
