/** The first handler of the chain: a stateless mapping of transport and
    status-level failures onto the library's error taxonomy. It never
    resolves a failure itself; it always lets the chain continue. */
module GeneralErrorHandling {
  import opened Errors

  /** The default meaning of a status code, when the endpoint does not
      override it. */
  function DefaultForStatus(statusCode: int): Option<GeneralRequestError>
  {
    if statusCode == Unauthorised401 then Some(NoAuth)
    else if statusCode == Forbidden403 then Some(Forbidden)
    else if statusCode == NotFound404 then Some(NotFound)
    else None
  }

  /** The default meaning of a URL error code, when the endpoint does not
      override it. */
  function DefaultForURLCode(code: int): Option<GeneralRequestError>
  {
    if code == NotConnectedToInternet then Some(NoInternetConnection)
    else if code == TimedOut then Some(TimedOutError)
    else if code == Cancelled then Some(CancelledError)
    else None
  }

  /** `map(_:statusCode:endpoint:)`: the endpoint's override for the status
      wins, then the default meaning, else the error is passed through. */
  function MapStatus(error: Error, statusCode: int, endpoint: Endpoint): (r: Error)
    ensures statusCode in endpoint.statusOverrides ==> r == endpoint.statusOverrides[statusCode]
    ensures statusCode !in endpoint.statusOverrides && DefaultForStatus(statusCode).Some? ==>
              r == General(DefaultForStatus(statusCode).value)
    ensures statusCode !in endpoint.statusOverrides && DefaultForStatus(statusCode).None? ==> r == error
  {
    if statusCode in endpoint.statusOverrides then endpoint.statusOverrides[statusCode]
    else match statusCode
      case 401 => General(NoAuth)
      case 403 => General(Forbidden)
      case 404 => General(NotFound)
      case _ => error
  }

  /** `map(_ error: URLError, endpoint:)`: the endpoint's override for the
      code wins, then the default meaning, else the URL error is passed
      through. */
  function MapURLError(code: int, endpoint: Endpoint): (r: Error)
    ensures code in endpoint.urlErrorOverrides ==> r == endpoint.urlErrorOverrides[code]
    ensures code !in endpoint.urlErrorOverrides && DefaultForURLCode(code).Some? ==>
              r == General(DefaultForURLCode(code).value)
    ensures code !in endpoint.urlErrorOverrides && DefaultForURLCode(code).None? ==> r == URLError(code)
  {
    if code in endpoint.urlErrorOverrides then endpoint.urlErrorOverrides[code]
    else if code == NotConnectedToInternet then General(NoInternetConnection)
    else if code == TimedOut then General(TimedOutError)
    else if code == Cancelled then General(CancelledError)
    else URLError(code)
  }

  /** `map(_ requestError:)`: a present status code decides alone; without
      one, a URL error is mapped by its code and anything else passes
      through unchanged. */
  function Map(p: RequestError): (r: Error)
    ensures p.statusCode.Some? ==> r == MapStatus(p.error, p.statusCode.value, p.endpoint)
    ensures p.statusCode.None? && p.error.URLError? ==> r == MapURLError(p.error.code, p.endpoint)
    ensures p.statusCode.None? && !p.error.URLError? ==> r == p.error
  {
    if p.statusCode.Some? then MapStatus(p.error, p.statusCode.value, p.endpoint)
    else match p.error
      case URLError(code) => MapURLError(code, p.endpoint)
      case _ => p.error
  }

  /** `handleError(with:completion:)`: always continues the chain, with the
      mapped error, and never resolves the failure. */
  function HandleError(p: RequestError): (r: ErrorHandlingResult)
    ensures r.ContinueErrorHandling?
    ensures r.error == Map(p)
  {
    ContinueErrorHandling(Map(p))
  }

  /** The mapping only ever yields the original error, one of the endpoint's
      own overrides, or an error of the library's taxonomy. */
  lemma MapIsClosed(p: RequestError)
    ensures var r := Map(p);
            r == p.error
            || r in p.endpoint.statusOverrides.Values
            || r in p.endpoint.urlErrorOverrides.Values
            || r.General?
  {
  }

  /** When a status code is present and has a meaning (an override or a
      default), the underlying error is not consulted at all: two payloads
      that differ only in their error map to the same result. */
  lemma StatusDecidesAlone(p: RequestError, other: Error)
    requires p.statusCode.Some?
    requires p.statusCode.value in p.endpoint.statusOverrides || DefaultForStatus(p.statusCode.value).Some?
    ensures Map(p) == Map(p.(error := other))
  {
  }

  /** Mapping an already mapped payload again changes nothing when the
      endpoint declares no overrides: the taxonomy is a fixed point. */
  lemma MapIdempotentWithoutOverrides(p: RequestError)
    requires p.endpoint.statusOverrides == map[] && p.endpoint.urlErrorOverrides == map[]
    ensures Map(p.(error := Map(p))) == Map(p)
  {
  }
}
