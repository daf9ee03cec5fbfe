/** Nullable results and the exceptions the weather SDK raises, as values. */
module Wrappers {

  /** Java `null` versus a present value. */
  datatype Option<+T> = None | Some(value: T)

  /** The Java exception types the modelled code throws or lets through. */
  datatype Exception =
    | IllegalArgumentException(message: string)
    | APIKeyException(message: string)
    | CoordinateException(message: string)
      // transport failures and JSON parse failures (JsonProcessingException is an IOException)
    | IOException(message: string)
    | InterruptedException
      // a malformed weather body makes the mapper dereference a missing node
    | RuntimeException(message: string)
      // scheduling on an executor that has been shut down
    | RejectedExecutionException

  /** A normal return or a thrown exception. */
  datatype Result<+T> = Success(value: T) | Failure(error: Exception)
}
