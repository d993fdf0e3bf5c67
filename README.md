# Networking core in Dafny

A model of the decision logic of the RonasIT Networking library, an HTTP
client layer on top of Alamofire. It covers:

- the **unauthorized error handler**, a single-flight coordinator. It queues
  the 401 failures of requests to endpoints that need authorization, issues
  exactly one access-token refresh for them, and answers every queued failure
  in arrival order when the refresh settles. A failure of a request that
  started before the last refresh settled is answered at once from that
  refresh's outcome (`unauthorized_error_handler.dfy`);
- the **general error handler**, which maps status codes and URL errors onto
  the library's error taxonomy. An endpoint's overrides take precedence
  (`general_error_handler.dfy`);
- the **network service's outcome dispatch**. Each response becomes exactly
  one action: the success callback, the failure callback, a retry of the same
  request, or nothing. The service also runs the token adapter before it
  starts the exchange (`network_service.dfy`);
- the **upload request lifecycle**: the stored completion, the cancel flag and
  the transport request, changed by `response`, `retry`, `cancel` and the
  multipart encoder's callback (`upload_request.dfy`);
- the **general request**: the header upsert `addHeader` and the transport
  handle that every `responseX` call replaces (`general_request.dfy`);
- the **token request adapter**'s rule for attaching the access token
  (`token_request_adapter.dfy`);
- the **JSON response serializer**'s ladder of checks
  (`json_serializer.dfy`).

Shared values live in `errors.dfy`: errors, endpoints, the request error
handed to handlers, and `ErrorHandlingResult`.

Objects whose fields the library updates in place are classes with those
fields: `UnauthorizedErrorHandler`, `UploadRequest` and `GeneralRequest`.
Each of their methods states the whole new state. The pure parts are
functions.

Callbacks are modelled by an identity (a number). The results a method hands
to callbacks are returned as values, in the order they are handed out. The
clock (`Date()`) and a request's task start time
(`metrics?.taskInterval.start`) are integer parameters. The start time is
optional because metrics may be missing.

Where the code is inconsistent with itself, or with the library's own tests,
the model follows the code:

- The same failed refresh is answered in two ways. A failure that arrives
  after the refresh settled, from a request that started before it, receives
  `continueFailure` with its own error at once
  (UnauthorizedErrorHandler.swift line 66). A failure that was queued while
  the refresh ran receives `continueErrorHandling` with its own error
  (line 117).
- The code does not remove a cancelled request's entry from the handler's
  queue.
- `UploadRequest.cancel` and `retry` return nothing in this version. The
  tests expect them to return a Bool.
- `NetworkingTests/Sources/Tests/RequestTests.swift` lines 78-99 expect an
  upload cancelled right after it was issued to deliver `.cancelled` to its
  failure callback. Under UploadRequest.swift lines 44-49 and 62-64, a
  cancelled upload drops its completion and every encoder callback returns
  early, so nothing is delivered (`UploadRequests.CancelledStaysSilent`).
- The handler chain's final result is the input to the dispatch.
  `NetworkService.swift`'s switch has no `continueErrorHandling` case, since
  it was written against an older result type. The model sends a
  `continueErrorHandling` that leaves the chain to the failure callback.

## Model

| member | source | states |
|---|---|---|
| `GeneralErrorHandling.MapStatus` | Sources/ErrorHandlers/GeneralErrorHandler.swift:35-50 | the endpoint's override for the status wins; otherwise 401, 403 and 404 become noAuth, forbidden and notFound, and any other status passes the error through |
| `GeneralErrorHandling.MapURLError` | Sources/ErrorHandlers/GeneralErrorHandler.swift:52-67 | the endpoint's override for the URL error code wins; otherwise notConnectedToInternet, timedOut and cancelled become noInternetConnection, timedOut and cancelled, and any other code passes the URL error through |
| `GeneralErrorHandling.Map` | Sources/ErrorHandlers/GeneralErrorHandler.swift:19-33 | a present status code decides through the status mapping alone; without one a URL error goes through the URL mapping and any other error is returned unchanged |
| `GeneralErrorHandling.HandleError` | Sources/ErrorHandlers/GeneralErrorHandler.swift:13-15 | always `continueErrorHandling` with the mapped error, never another result |
| `GeneralErrorHandling.MapIsClosed` | Sources/ErrorHandlers/GeneralErrorHandler.swift:19-67 | the mapped error is the original one, one of the endpoint's overrides, or an error of the taxonomy |
| `GeneralErrorHandling.StatusDecidesAlone` | Sources/ErrorHandlers/GeneralErrorHandler.swift:23-50 | when the status has an override or a default meaning, the underlying error does not influence the result |
| `GeneralErrorHandling.MapIdempotentWithoutOverrides` | Sources/ErrorHandlers/GeneralErrorHandler.swift:35-67 | without endpoint overrides, mapping an already mapped error again changes nothing |
| `UnauthorizedErrorHandling.Decide` | Sources/ErrorHandlers/UnauthorizedErrorHandler.swift:43-88 | an unsupported error (no authorization needed, or status not 401) continues with the original error; a qualifying failure waits while no refresh has settled; after a refresh settled at d it is answered at once exactly when its start time is known and earlier than d, with `retryNeeded` if the token was refreshed and otherwise `continueFailure` with the original error |
| `UnauthorizedErrorHandling.UnauthorizedErrorHandler.constructor` | Sources/ErrorHandlers/UnauthorizedErrorHandler.swift:27-28 | starts in `none` with an empty queue and no refresh issued |
| `UnauthorizedErrorHandling.UnauthorizedErrorHandler.HandleError` | Sources/ErrorHandlers/UnauthorizedErrorHandler.swift:43-76 | an immediate answer leaves state, queue and refresh count unchanged; a queued failure is appended at the end, the state becomes `resolvingError`, and a refresh is issued only if none was running |
| `UnauthorizedErrorHandling.UnauthorizedErrorHandler.EnqueueFailure` | Sources/ErrorHandlers/UnauthorizedErrorHandler.swift:90-93 | appends the failure, then ensures a refresh is running |
| `UnauthorizedErrorHandling.UnauthorizedErrorHandler.ResolveError` | Sources/ErrorHandlers/UnauthorizedErrorHandler.swift:95-100 | issues a refresh only when not already resolving, so at most one refresh is outstanding; the queue is untouched |
| `UnauthorizedErrorHandling.UnauthorizedErrorHandler.HandleTokenRefreshCompletion` | Sources/ErrorHandlers/UnauthorizedErrorHandler.swift:111-121 | the state becomes `errorResolved(now, isTokenRefreshed)`; the results handed out are the queue drained in order; the queue ends empty |
| `UnauthorizedErrorHandling.UnauthorizedErrorHandler.RefreshSucceeded` | Sources/ErrorHandlers/UnauthorizedErrorHandler.swift:101-105 | every queued failure receives `retryNeeded`, one each, in enqueue order |
| `UnauthorizedErrorHandling.UnauthorizedErrorHandler.RefreshFailed` | Sources/ErrorHandlers/UnauthorizedErrorHandler.swift:106-117 | the refresh's error is dropped; every queued failure receives `continueErrorHandling` with its own original error, one each, in enqueue order |
| `UnauthorizedErrorHandling.ShouldHandleRequestError` | Sources/ErrorHandlers/UnauthorizedErrorHandler.swift:80-88 | only a 401 from an endpoint that needs authorization is handled; an endpoint without authorization, another status or no response at all is not |
| `UnauthorizedErrorHandling.Resolution` | Sources/ErrorHandlers/UnauthorizedErrorHandler.swift:113-118 | a queued failure's own completion is answered: `retryNeeded` exactly when the token was refreshed, otherwise `continueErrorHandling` with its own error |
| `UnauthorizedErrorHandling.Drain` | Sources/ErrorHandlers/UnauthorizedErrorHandler.swift:113-119 | one result per queued failure, the first for the front of the queue |
| `UnauthorizedErrorHandling.DrainAppend` | Sources/ErrorHandlers/UnauthorizedErrorHandler.swift:113-119 | draining a queue with one more failure at the end hands out that failure's result last |
| `UnauthorizedErrorHandling.DrainAnswersEachInOrder` | Sources/ErrorHandlers/UnauthorizedErrorHandler.swift:111-121 | draining gives exactly one result per queued failure, in queue order, to that failure's own completion |
| `UnauthorizedErrorHandling.DrainNeverDeliversForeignError` | Sources/ErrorHandlers/UnauthorizedErrorHandler.swift:106-119 | after a failed refresh, no queued request receives an error that was not its own, such as the refresh's error |
| `UnauthorizedErrorHandling.ReportFailures` | Sources/ErrorHandlers/UnauthorizedErrorHandler.swift:50-100 | failures reported with no refresh settling in between issue at most one refresh; from a state that is not resolved, qualifying failures issue exactly one refresh (none if one was already running) and are all queued in order with no immediate answer |
| `NetworkServices.ActionFor` | Sources/Networking/Services/NetworkService.swift:72-81 | `continueFailure` and `continueErrorHandling` call `failure` with their error; `retryNeeded` retries; `ignoreFailure` calls nothing |
| `NetworkServices.HandleResponseError` | Sources/Networking/Services/NetworkService.swift:62-82 | without an error handling service, `failure` gets the original error; otherwise the chain receives a request error that carries the request's endpoint, the underlying error and the response, and its result picks the action |
| `NetworkServices.Response` | Sources/Networking/Services/NetworkService.swift:47-57 | when the service or the request has been released, nothing is called, even for a success; otherwise a success calls `success` with the value and never consults the chain, and a failure never calls `success` but goes through `handleResponseError` |
| `NetworkServices.GeneralChainReportsMappedError` | Sources/Networking/Services/NetworkService.swift:71-75 | with the general error handler as the chain, a failure reaches `failure` with the mapped error |
| `NetworkServices.Send` | Sources/Networking/Services/NetworkService.swift:43-59 | the adapter runs before the exchange starts, so the transport request carries the adapted headers, with exactly one authorization header, the token's, when one is attached; one more transport request is made; the same request object is returned as the cancellable |
| `UploadRequests.AfterResponse` | Sources/Request/UploadRequest.swift:21-36 | stores the completion, drops the previous transport request without cancelling it, clears the cancel flag and starts one more body encoding |
| `UploadRequests.AfterRetry` | Sources/Request/UploadRequest.swift:38-42 | without a stored completion, nothing changes; with one, it is a new `response` with that completion |
| `UploadRequests.AfterCancel` | Sources/Request/UploadRequest.swift:44-49 | sets the cancel flag and clears the transport request and the completion |
| `UploadRequests.AfterEncoding` | Sources/Request/UploadRequest.swift:61-72 | a cancelled request changes nothing and delivers nothing; otherwise a successful encoding stores and sends the transport request to the captured completion, and a failed one hands that completion a failure with the encoding error |
| `UploadRequests.TransitionsKeepConsistent` | Sources/Request/UploadRequest.swift:21-72 | a cancelled request holds no completion or transport request, a transport request is held only with a completion, and no encoder callback is pending before the first `response`; every transition keeps all three |
| `UploadRequests.RetryNeedsResponse` | Sources/Request/UploadRequest.swift:38-42 | retry does nothing before the first `response`, and after it starts a new attempt that re-encodes the body for the same completion |
| `UploadRequests.CancelIdempotentAndFinal` | Sources/Request/UploadRequest.swift:38-49 | cancelling twice gives the state of cancelling once; after a cancel, retry does nothing |
| `UploadRequests.CancelledStaysSilent` | Sources/Request/UploadRequest.swift:61-64 | once cancelled, any sequence of encoder callbacks changes nothing and delivers nothing |
| `UploadRequests.UploadRequest.constructor` | Sources/Request/UploadRequest.swift:12-14 | no completion, not cancelled, no transport request |
| `UploadRequests.UploadRequest.Response` | Sources/Request/UploadRequest.swift:21-36 | the new state is `AfterResponse` of the old one |
| `UploadRequests.UploadRequest.Retry` | Sources/Request/UploadRequest.swift:38-42 | the new state is `AfterRetry` of the old one |
| `UploadRequests.UploadRequest.Cancel` | Sources/Request/UploadRequest.swift:44-49 | the new state is `AfterCancel` of the old one; the transport request that was held is the one asked to cancel |
| `UploadRequests.UploadRequest.Start` | Sources/Request/UploadRequest.swift:53-79 | clears the cancel flag and starts one more body encoding for the given completion |
| `UploadRequests.UploadRequest.EncodingCompleted` | Sources/Request/UploadRequest.swift:24-35 | state and effect are those of `AfterEncoding` |
| `GeneralRequests.GeneralRequest.constructor` | Sources/Request/General/GeneralRequest.swift:13-22 | additional headers start empty, with no transport request |
| `GeneralRequests.GeneralRequest.Respond` | Sources/Request/General/GeneralRequest.swift:24-49 | every `responseX` replaces the stored handle with a new one, different from the previous one and built with the current headers |
| `GeneralRequests.GeneralRequest.Cancel` | Sources/Request/General/GeneralRequest.swift:51-53 | acts only on the current handle, if there is one, and changes nothing else |
| `GeneralRequests.GeneralRequest.AddHeader` | Sources/Request/General/GeneralRequest.swift:55-66 | the new headers are the old ones with the first header of that key removed and the new header appended; header keys stay unique |
| `GeneralRequests.RemoveFirstKey` | Sources/Request/General/GeneralRequest.swift:57-62 | at most one header is removed and none is added |
| `GeneralRequests.Upsert` | Sources/Request/General/GeneralRequest.swift:57-65 | the added header comes last and the list grows by at most one |
| `GeneralRequests.RemoveFirstKeyAt` | Sources/Request/General/GeneralRequest.swift:57-62 | removing the first header with the key cuts out the first matching index |
| `GeneralRequests.RemoveFirstKeyAbsent` | Sources/Request/General/GeneralRequest.swift:57-61 | with no header of that key, nothing is removed |
| `GeneralRequests.RemoveFirstKeyEffect` | Sources/Request/General/GeneralRequest.swift:57-63 | exactly one header with the key is removed when there is one; headers with other keys keep their order |
| `GeneralRequests.UpsertEffect` | Sources/Request/General/GeneralRequest.swift:55-66 | the added header is last; headers with other keys keep their relative order; length grows by one exactly for a new key; only the first duplicate is dropped |
| `GeneralRequests.UpsertKeepsKeysUnique` | Sources/Request/General/GeneralRequest.swift:55-66 | if keys were unique before, they stay unique and the added header is the only one with its key |
| `TokenRequestAdapters.AuthorizationHeader` | Sources/RequestAdapters/TokenRequestAdapter.swift:21 | the attached header has the authorization key |
| `TokenRequestAdapters.AdaptedHeaders` | Sources/RequestAdapters/TokenRequestAdapter.swift:14-29 | headers are untouched unless the endpoint needs authorization and a token exists; then the token's header is last, other headers are unchanged, and it is the only authorization header if there was at most one before |
| `TokenRequestAdapters.AdaptedHeadersKeepKeysUnique` | Sources/RequestAdapters/TokenRequestAdapter.swift:14-29 | on headers with unique keys, adapting keeps keys unique and the token's header is the only authorization header |
| `TokenRequestAdapters.Adapt` | Sources/RequestAdapters/TokenRequestAdapter.swift:14-29 | always returns, with the request's headers as `AdaptedHeaders` gives them, keeps header keys unique, and changes nothing else |
| `JsonSerialization.JsonResponseSerializer` | Sources/Request/Extensions/DataRequest+JSON.swift:12-33 | an incoming error is the failure whatever the data; no data gives `inputDataNil`; a parser error is the failure; a parsed value that is not a dictionary gives `keyValueValidation`; success exactly for a dictionary, carrying that dictionary |
| `JsonSerialization.SerializerFailuresAreClosed` | Sources/Request/Extensions/DataRequest+JSON.swift:12-33 | every failure is one of the four: the incoming error, `inputDataNil`, the parser's error, `keyValueValidation` |

## Left out

- The Alamofire transport is not modelled: making and sending requests, `validate()`, the multipart body builders, response delivery and what `cancel()` on a transport request later reports. Transport requests are opaque handles.
- Concurrency is not modelled: dispatch queues, the weak-self guards of the refresh callbacks, and re-entrant calls from completion callbacks. Each event is one sequential method call.
- `NetworkServices.Response` takes whether the service or the request was released as a flag. Reference counting itself is not modelled.
- `UnauthorizedErrorHandling.UnauthorizedErrorHandler.RefreshSucceeded` and `RefreshFailed` require a refresh to be outstanding. The supervisor is assumed to call back exactly once per refresh, which the single-flight invariant relies on.
- The typed `request`/`uploadRequest` overloads are not modelled, since they only choose a serializer.
- The handler-chain runner (`ErrorHandlingService`) is not part of this model. Its final result is an input to the dispatch.
- The request adapting service is not part of this model; `NetworkServices.Send` runs the token adapter alone. The format of the authorization header's value is not part of this model either; it carries the token as is.
- `TokenRequestAdapters.Adapt` uses `GeneralRequest.addHeader` for `appendHeader`, which is not part of this model.
- `NetworkServices.Send` uses a `GeneralRequest`. The file drives a `BaseRequest`, and only `GeneralRequest` exposes its headers.
- How `httpHeaders` combines the endpoint's headers with the additional ones is not modelled. A handle records only the additional headers.
- `Sources/Networking/NetworkService.swift`, the older orchestrator, is not modelled. It only wires requests together and its `authorization` always returns `.none`.
- JSON parsing is not modelled; it is a function parameter. The generic `[Key: Value]` cast is modelled as "the value is a JSON object with string keys".
- Logging is not modelled.
