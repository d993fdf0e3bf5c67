/** The orchestrator: adapts a request, starts it, and turns the outcome of
    the exchange into exactly one action: the success callback, the failure
    callback with some error, a retry of the same request, or nothing. The
    error handling service (the handler chain) is not part of this model;
    its final result for a request error is an input. */
module NetworkServices {
  import opened Errors
  import opened GeneralRequests
  import TokenRequestAdapters
  import GeneralErrorHandling

  /** What Alamofire hands to the completion: the serialized result, the
      HTTP status if a response arrived, and the task's start time if
      metrics were collected. */
  datatype DataResponse<T> = DataResponse(result: Result<T>, statusCode: Option<int>, startTime: Option<int>)

  /** The one thing `response(for:success:failure:)` does with an outcome. */
  datatype Action<T> =
    | CallSuccess(value: T)
    | CallFailure(error: Error)
    | RetryRequest
    | NoCallback

  /** The action, and the request error handed to the handler chain, if the
      chain was consulted. */
  datatype Dispatch<T> = Dispatch(handed: Option<RequestError>, action: Action<T>)

  /** The switch over the chain's final result. A `continueErrorHandling`
      that leaves the chain reaches the caller like `continueFailure`. */
  function ActionFor<T>(result: ErrorHandlingResult): (a: Action<T>)
    ensures (result.ContinueFailure? || result.ContinueErrorHandling?) <==> a.CallFailure?
    ensures a.CallFailure? ==> a.error == result.error
    ensures result.RetryNeeded? <==> a.RetryRequest?
    ensures result.IgnoreFailure? <==> a.NoCallback?
  {
    match result
    case ContinueFailure(e) => CallFailure(e)
    case ContinueErrorHandling(e) => CallFailure(e)
    case RetryNeeded => RetryRequest
    case IgnoreFailure => NoCallback
  }

  /** `handleResponseError`: without a handling service the original error
      goes straight to `failure`; otherwise the chain gets a request error
      carrying the request's endpoint and the underlying error, and its
      result decides. */
  function HandleResponseError<T>(error: Error, response: DataResponse<T>, endpoint: Endpoint,
                                  chain: Option<RequestError -> ErrorHandlingResult>): (d: Dispatch<T>)
    ensures chain.None? ==> d.handed.None? && d.action == CallFailure(error)
    ensures chain.Some? ==>
              d.handed.Some? && d.handed.value.endpoint == endpoint && d.handed.value.error == error &&
              d.handed.value.statusCode == response.statusCode &&
              d.handed.value.startTime == response.startTime &&
              d.action == ActionFor(chain.value(d.handed.value))
  {
    if chain.None? then Dispatch(None, CallFailure(error))
    else
      var requestError := RequestError(endpoint, error, response.statusCode, response.startTime);
      Dispatch(Some(requestError), ActionFor(chain.value(requestError)))
  }

  /** The completion installed by `response(for:success:failure:)`. It
      holds the service and the request weakly: `released` says that one of
      them was deallocated before the response arrived, and then the
      completion returns without calling anything. */
  function Response<T>(response: DataResponse<T>, endpoint: Endpoint,
                       chain: Option<RequestError -> ErrorHandlingResult>, released: bool): (d: Dispatch<T>)
    // a released service or request: nothing is called, even for a success
    ensures released ==> d == Dispatch(None, NoCallback)
    // a success goes to `success` alone; the chain is not consulted
    ensures !released && response.result.Success? ==> d == Dispatch(None, CallSuccess(response.result.value))
    // a failure never reaches `success`
    ensures response.result.Failure? ==> !d.action.CallSuccess?
    ensures !released && response.result.Failure? ==>
              d == HandleResponseError(response.result.error, response, endpoint, chain)
  {
    if released then Dispatch(None, NoCallback)
    else match response.result
      case Failure(error) => HandleResponseError(error, response, endpoint, chain)
      case Success(value) => Dispatch(None, CallSuccess(value))
  }

  /** With the general error handler as the whole chain, a failed exchange
      reaches the caller's `failure` with the error mapped onto the
      library's taxonomy. */
  lemma GeneralChainReportsMappedError<T>(response: DataResponse<T>, endpoint: Endpoint)
    requires response.result.Failure?
    ensures var d := Response(response, endpoint, Some(GeneralErrorHandling.HandleError), false);
            d.action == CallFailure(GeneralErrorHandling.Map(
              RequestError(endpoint, response.result.error, response.statusCode, response.startTime)))
  {
  }

  /** `response(for:success:failure:)` up to the point where the exchange is
      started: the adapter (the token adapter, when a request adapting
      service is configured) runs first, so the transport request is built
      with the adapted headers; the same request object is returned as the
      cancellable handle. */
  method Send(request: GeneralRequest, adapting: bool, accessToken: Option<string>, kind: ResponseKind)
    returns (cancellable: GeneralRequest, made: Handle)
    requires request.Valid()
    modifies request
    ensures cancellable == request && request.Valid()
    ensures var adapted := if adapting
              then TokenRequestAdapters.AdaptedHeaders(request.endpoint, accessToken, old(request.additionalHeaders))
              else old(request.additionalHeaders);
            request.additionalHeaders == adapted &&
            made == Handle(old(request.madeCount), adapted, kind) &&
            request.request == Some(made) && request.madeCount == old(request.madeCount) + 1
    // an adapted request that needs authorization goes out with exactly one
    // authorization header, the token's, last
    ensures adapting && request.endpoint.requiresAuthorization && accessToken.Some? ==>
              |made.headers| > 0 &&
              made.headers[|made.headers| - 1] == TokenRequestAdapters.AuthorizationHeader(accessToken.value) &&
              forall i :: 0 <= i < |made.headers| - 1 ==> made.headers[i].key != TokenRequestAdapters.AuthorizationKey
  {
    TokenRequestAdapters.AdaptedHeadersKeepKeysUnique(request.endpoint, accessToken, request.additionalHeaders);
    if adapting {
      TokenRequestAdapters.Adapt(request, accessToken);
    }
    made := request.Respond(kind);
    cancellable := request;
  }
}
