/** Optional values, results and the errors that travel through the tool.
    Go returns `(value, error)` pairs and nil pointers; here they are
    `Result` and `Option`. */
module Wrappers {

  datatype Option<+T> = None | Some(value: T)

  datatype Result<+T> = Ok(value: T) | Err(error: Error)

  /** The errors the modelled code produces or passes on.
      - `Failure`: an error built from a message (`errors.Errorf`).
      - `ApiError`: an error of the provider API, identified by its code
        (`smithy.APIError.ErrorCode()`), such as "NotFound" or "NoSuchKey".
      - `RetryFailure`: a handler error wrapped by the retry loop.
      - `RetryTimeout`: the sentinel returned when the retry budget is spent.
      `errors.WithStack` keeps an error's identity, so it has no constructor. */
  datatype Error =
    | Failure(message: string)
    | ApiError(code: string)
    | RetryFailure(cause: Error)
    | RetryTimeout

  /** The code `errors.As(err, &apiErr)` finds: it looks through wrappers. */
  function ApiCode(e: Error): Option<string>
  {
    match e
    case ApiError(code) => Some(code)
    case RetryFailure(cause) => ApiCode(cause)
    case _ => None
  }
}
