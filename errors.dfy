/** Values shared by the whole networking core: errors, endpoints, the
    request error handed to the error handlers, and the result an error
    handler reports back. */
module Errors {

  datatype Option<+T> = None | Some(value: T)

  datatype Result<+T> = Success(value: T) | Failure(error: Error)

  /** HTTP status codes the core gives a meaning to. */
  const Unauthorised401: int := 401
  const Forbidden403: int := 403
  const NotFound404: int := 404

  /** Raw values of the Foundation URL error codes the core distinguishes. */
  const NotConnectedToInternet: int := -1009
  const TimedOut: int := -1001
  const Cancelled: int := -999

  /** The library's own closed taxonomy of request errors. */
  datatype GeneralRequestError =
    | NoAuth
    | Forbidden
    | NotFound
    | NoInternetConnection
    | TimedOutError
    | CancelledError

  /** Every error the core passes around. Errors the core never inspects
      (server errors, decoding errors, the token refresh error, ...) are
      `Opaque`, told apart by an identity. */
  datatype Error =
    | Opaque(id: nat)
    | URLError(code: int)
    | General(kind: GeneralRequestError)
    | InputDataNil          // Alamofire's responseSerializationFailed(.inputDataNil)
    | KeyValueValidation    // CocoaError(.keyValueValidation)

  /** The read-only endpoint descriptor, reduced to what the core reads:
      whether it needs an access token, and its per-status and per-URL-error
      overrides (`error(for:)`). */
  datatype Endpoint = Endpoint(
    requiresAuthorization: bool,
    statusOverrides: map<int, Error>,
    urlErrorOverrides: map<int, Error>)

  /** A failed exchange as the error handlers see it: the endpoint, the
      underlying error, the HTTP status of the response if there was one, and
      the time the transport task started, if metrics were collected. */
  datatype RequestError = RequestError(
    endpoint: Endpoint,
    error: Error,
    statusCode: Option<int>,
    startTime: Option<int>)

  /** What an error handler reports back for one request error. */
  datatype ErrorHandlingResult =
    | ContinueErrorHandling(error: Error)
    | ContinueFailure(error: Error)
    | RetryNeeded
    | IgnoreFailure
}
