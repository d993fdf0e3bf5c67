/** The pre-send hook that attaches the current access token to requests
    whose endpoint needs authorization. Attaching is best effort: without a
    token the request goes out as it is, and the resulting 401 is left to
    the unauthorized error handler. */
module TokenRequestAdapters {
  import opened Errors
  import opened GeneralRequests

  const AuthorizationKey: string := "Authorization"

  /** `RequestHeaders.authorization(token)`: the header carrying the token.
      How the library formats the header value is not part of this model;
      the value here is the token itself. */
  function AuthorizationHeader(token: string): (h: RequestHeader)
    ensures h.key == AuthorizationKey
  {
    RequestHeader(AuthorizationKey, token)
  }

  /** The additional headers a request has after `adapt`. */
  function AdaptedHeaders(endpoint: Endpoint, accessToken: Option<string>, headers: seq<RequestHeader>): (r: seq<RequestHeader>)
    // untouched unless the endpoint needs authorization and a token exists
    ensures !(endpoint.requiresAuthorization && accessToken.Some?) ==> r == headers
    // otherwise the token's header is last, and the only authorization header
    // whenever there was at most one before
    ensures endpoint.requiresAuthorization && accessToken.Some? ==>
              |r| > 0 && r[|r| - 1] == AuthorizationHeader(accessToken.value) &&
              (KeyCount(headers, AuthorizationKey) <= 1 ==> KeyCount(r, AuthorizationKey) == 1) &&
              WithoutKey(r, AuthorizationKey) == WithoutKey(headers, AuthorizationKey)
  {
    if endpoint.requiresAuthorization && accessToken.Some? then
      UpsertEffect(headers, AuthorizationHeader(accessToken.value));
      Upsert(headers, AuthorizationHeader(accessToken.value))
    else headers
  }

  /** On a request whose header keys are unique, adapting keeps them unique,
      and the token's header is then the one and only authorization header. */
  lemma AdaptedHeadersKeepKeysUnique(endpoint: Endpoint, accessToken: Option<string>, headers: seq<RequestHeader>)
    requires UniqueKeys(headers)
    ensures UniqueKeys(AdaptedHeaders(endpoint, accessToken, headers))
    ensures endpoint.requiresAuthorization && accessToken.Some? ==>
              var r := AdaptedHeaders(endpoint, accessToken, headers);
              forall i :: 0 <= i < |r| - 1 ==> r[i].key != AuthorizationKey
  {
    if endpoint.requiresAuthorization && accessToken.Some? {
      UpsertKeepsKeysUnique(headers, AuthorizationHeader(accessToken.value));
    }
  }

  /** `adapt(_:)`: never fails and never blocks the send; changes nothing
      but the request's additional headers. */
  method Adapt(request: GeneralRequest, accessToken: Option<string>)
    requires request.Valid()
    modifies request`additionalHeaders
    ensures request.Valid()
    ensures request.additionalHeaders ==
              AdaptedHeaders(request.endpoint, accessToken, old(request.additionalHeaders))
  {
    if !request.endpoint.requiresAuthorization {
      return;
    }
    if accessToken.Some? {
      request.AddHeader(AuthorizationHeader(accessToken.value));
    }
  }
}
