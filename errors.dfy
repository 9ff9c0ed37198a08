/**
 * The two kinds of error the SDK raises: a validation error, raised before
 * any call, and an API error wrapping a transport failure.
 */
module Errors {
  import opened Transport

  datatype Error =
    | ValidationError(message: string)
    | ApiError(message: string, code: int, cause: TransportError)

  /** The value of an operation, or the error it raised. */
  datatype Result<T> = Ok(value: T) | Err(error: Error)

  /** The fixed marker every API error message starts with. */
  const ApiFailurePrefix: string := "API isteği başarısız: "

  /** The API error a transport failure surfaces as: the marker followed by
      the transport's message, the transport's code, and the failure itself
      kept as its cause. */
  function WrapFailure(e: TransportError): (err: Error)
    ensures err.ApiError?
    ensures |err.message| == |ApiFailurePrefix| + |e.message|
    ensures err.message[..|ApiFailurePrefix|] == ApiFailurePrefix
    ensures err.message[|ApiFailurePrefix|..] == e.message
    ensures err.code == e.code && err.cause == e
  {
    ApiError(ApiFailurePrefix + e.message, e.code, e)
  }

}
