/** The single-flight coordinator of access-token refreshes. Many requests
    may fail with 401 at about the same time; the handler queues them,
    issues one refresh, and when it settles answers every queued failure in
    the order it arrived. A failure of a request that started before the
    last refresh settled is answered at once from that refresh's outcome.

    The original runs on callbacks; here each event (a failure reported to
    the handler, the refresh succeeding, the refresh failing) is one method
    call on the handler, and the results handed to the failures' completion
    callbacks are returned as values. The clock (`Date()`) and the request's
    task start time are parameters. */
module UnauthorizedErrorHandling {
  import opened Errors

  /** The handler's state: `.none`, `.resolvingError`, and
      `.errorResolved(resolveDate:isTokenRefreshed:)`. */
  datatype State =
    | Idle
    | ResolvingError
    | ErrorResolved(resolveDate: int, isTokenRefreshed: bool)

  /** A queued failure: the original error and the completion callback to
      answer, identified by a number. */
  datatype QueuedFailure = Pending(error: Error, completion: nat)

  /** One call of a completion callback with its result. */
  datatype Delivery = Delivery(completion: nat, result: ErrorHandlingResult)

  /** What the handler does with a failure reported to it. */
  datatype Decision = Answer(result: ErrorHandlingResult) | Enqueue

  /** Only a 401 from an endpoint that needs authorization is handled; a 401
      from, say, a login endpoint must not trigger a refresh. */
  predicate ShouldHandleRequestError(e: RequestError): (b: bool)
    // an endpoint that does not need authorization is never handled
    ensures !e.endpoint.requiresAuthorization ==> !b
    // neither is any failure other than an HTTP 401, nor one without a response
    ensures e.statusCode != Some(Unauthorised401) ==> !b
    // every 401 of an endpoint that needs authorization is
    ensures e.endpoint.requiresAuthorization && e.statusCode == Some(Unauthorised401) ==> b
  {
    e.endpoint.requiresAuthorization && e.statusCode == Some(Unauthorised401)
  }

  /** The decision rule of `handleError`, as a function of the state the
      failure finds the handler in. */
  function Decide(state: State, e: RequestError): (d: Decision)
    // unsupported errors continue the chain with the original error
    ensures !ShouldHandleRequestError(e) ==> d == Answer(ContinueErrorHandling(e.error))
    // while no refresh has settled yet, every qualifying failure waits
    ensures ShouldHandleRequestError(e) && !state.ErrorResolved? ==> d == Enqueue
    // after a refresh settled: answered now exactly when the request started before it
    ensures ShouldHandleRequestError(e) && state.ErrorResolved? ==>
              (d.Answer? <==> e.startTime.Some? && e.startTime.value < state.resolveDate)
    // an immediate answer replays the outcome of the refresh
    ensures ShouldHandleRequestError(e) && d.Answer? ==>
              d.result == if state.isTokenRefreshed then RetryNeeded else ContinueFailure(e.error)
  {
    if !ShouldHandleRequestError(e) then Answer(ContinueErrorHandling(e.error))
    else match state
      case ErrorResolved(date, refreshed) =>
        if e.startTime.Some? && e.startTime.value < date then
          Answer(if refreshed then RetryNeeded else ContinueFailure(e.error))
        else Enqueue
      case _ => Enqueue
  }

  /** The result a queued failure receives when the refresh settles. */
  function Resolution(f: QueuedFailure, isTokenRefreshed: bool): (d: Delivery)
    // the failure's own completion is answered
    ensures d.completion == f.completion
    // a refreshed token retries; otherwise the failure continues with its own error
    ensures isTokenRefreshed <==> d.result.RetryNeeded?
    ensures !isTokenRefreshed ==> d.result == ContinueErrorHandling(f.error)
  {
    Delivery(f.completion, if isTokenRefreshed then RetryNeeded else ContinueErrorHandling(f.error))
  }

  /** The results of draining a queue, in queue order. */
  function Drain(fs: seq<QueuedFailure>, isTokenRefreshed: bool): (ds: seq<Delivery>)
    // one delivery per queued failure, the first to the front of the queue
    ensures |ds| == |fs|
    ensures fs != [] ==> ds[0] == Resolution(fs[0], isTokenRefreshed)
  {
    if fs == [] then [] else [Resolution(fs[0], isTokenRefreshed)] + Drain(fs[1..], isTokenRefreshed)
  }

  lemma {:induction false} DrainAppend(fs: seq<QueuedFailure>, f: QueuedFailure, isTokenRefreshed: bool)
    ensures Drain(fs + [f], isTokenRefreshed) == Drain(fs, isTokenRefreshed) + [Resolution(f, isTokenRefreshed)]
  {
    if fs == [] {
      assert fs + [f] == [f];
    } else {
      assert (fs + [f])[1..] == fs[1..] + [f];
      DrainAppend(fs[1..], f, isTokenRefreshed);
    }
  }

  /** Draining answers every queued failure exactly once, in enqueue order:
      with `retryNeeded` after a successful refresh, and otherwise with
      `continueErrorHandling` carrying that failure's own original error. */
  lemma {:induction false} DrainAnswersEachInOrder(fs: seq<QueuedFailure>, isTokenRefreshed: bool)
    ensures |Drain(fs, isTokenRefreshed)| == |fs|
    ensures forall i :: 0 <= i < |fs| ==>
              Drain(fs, isTokenRefreshed)[i].completion == fs[i].completion &&
              Drain(fs, isTokenRefreshed)[i].result ==
                (if isTokenRefreshed then RetryNeeded else ContinueErrorHandling(fs[i].error))
  {
    if fs != [] {
      DrainAnswersEachInOrder(fs[1..], isTokenRefreshed);
      forall i | 0 < i < |fs|
        ensures Drain(fs, isTokenRefreshed)[i] == Drain(fs[1..], isTokenRefreshed)[i - 1]
      {
      }
    }
  }

  /** A failed refresh never hands its own error to a queued request: the
      only errors delivered are the queued failures' own. */
  lemma DrainNeverDeliversForeignError(fs: seq<QueuedFailure>, refreshError: Error)
    requires forall f :: f in fs ==> f.error != refreshError
    ensures forall d :: d in Drain(fs, false) ==> d.result != ContinueErrorHandling(refreshError)
  {
  }

  class UnauthorizedErrorHandler {
    var state: State
    var failures: seq<QueuedFailure>
    /** How many times `refreshAccessToken` has been called. */
    var refreshCount: nat
    /** How many refreshes have called back (successfully or not). */
    ghost var settled: nat

    /** Failures wait only while a refresh is outstanding, and at most one
        refresh is ever outstanding: the one issued on entering
        `resolvingError`. */
    ghost predicate Valid()
      reads this
    {
      (failures != [] <==> state == ResolvingError) &&
      refreshCount == settled + (if state == ResolvingError then 1 else 0)
    }

    constructor ()
      ensures Valid()
      ensures state == Idle && failures == [] && refreshCount == 0
    {
      state := Idle;
      failures := [];
      refreshCount := 0;
      settled := 0;
    }

    /** `handleError(_:completion:)`. Returns the result given to the
        completion at once, or `None` when the failure is queued. */
    method HandleError(e: RequestError, completion: nat) returns (answer: Option<ErrorHandlingResult>)
      requires Valid()
      modifies this
      ensures Valid() && settled == old(settled)
      ensures Decide(old(state), e).Answer? ==>
                answer == Some(Decide(old(state), e).result) &&
                state == old(state) && failures == old(failures) && refreshCount == old(refreshCount)
      ensures Decide(old(state), e).Enqueue? ==>
                answer == None && state == ResolvingError &&
                failures == old(failures) + [Pending(e.error, completion)] &&
                refreshCount == old(refreshCount) + (if old(state) == ResolvingError then 0 else 1)
    {
      if !ShouldHandleRequestError(e) {
        answer := Some(ContinueErrorHandling(e.error));
        return;
      }
      match state {
        case ErrorResolved(resolveDate, isTokenRefreshed) =>
          if e.startTime.Some? && e.startTime.value < resolveDate {
            if isTokenRefreshed {
              answer := Some(RetryNeeded);
            } else {
              answer := Some(ContinueFailure(e.error));
            }
          } else {
            EnqueueFailure(Pending(e.error, completion));
            answer := None;
          }
        case _ =>
          EnqueueFailure(Pending(e.error, completion));
          answer := None;
      }
    }

    /** `enqueueFailure(_:)`: append, then make sure a refresh is running. */
    method EnqueueFailure(f: QueuedFailure)
      requires Valid()
      modifies this
      ensures Valid() && settled == old(settled)
      ensures failures == old(failures) + [f] && state == ResolvingError
      ensures refreshCount == old(refreshCount) + (if old(state) == ResolvingError then 0 else 1)
    {
      failures := failures + [f];
      ResolveError();
    }

    /** `resolveError()`: issues a refresh unless one is already running. */
    method ResolveError()
      requires failures != []
      requires refreshCount == settled + (if state == ResolvingError then 1 else 0)
      modifies this
      ensures Valid() && settled == old(settled)
      ensures failures == old(failures) && state == ResolvingError
      ensures refreshCount == old(refreshCount) + (if old(state) == ResolvingError then 0 else 1)
    {
      if state == ResolvingError {
        return;
      }
      state := ResolvingError;
      refreshCount := refreshCount + 1;
    }

    /** The refresh's success callback. */
    method RefreshSucceeded(now: int) returns (deliveries: seq<Delivery>)
      requires Valid() && state == ResolvingError
      modifies this
      ensures Valid() && settled == old(settled) + 1 && refreshCount == old(refreshCount)
      ensures state == ErrorResolved(now, true) && failures == []
      ensures |deliveries| == |old(failures)|
      ensures forall i :: 0 <= i < |deliveries| ==>
                deliveries[i] == Delivery(old(failures)[i].completion, RetryNeeded)
    {
      ghost var queued := failures;
      deliveries := HandleTokenRefreshCompletion(true, now);
      DrainAnswersEachInOrder(queued, true);
    }

    /** The refresh's failure callback: the refresh's own error is dropped,
        and every queued request continues with its own original error. */
    method RefreshFailed(refreshError: Error, now: int) returns (deliveries: seq<Delivery>)
      requires Valid() && state == ResolvingError
      modifies this
      ensures Valid() && settled == old(settled) + 1 && refreshCount == old(refreshCount)
      ensures state == ErrorResolved(now, false) && failures == []
      ensures |deliveries| == |old(failures)|
      ensures forall i :: 0 <= i < |deliveries| ==>
                deliveries[i] == Delivery(old(failures)[i].completion, ContinueErrorHandling(old(failures)[i].error))
    {
      ghost var queued := failures;
      deliveries := HandleTokenRefreshCompletion(false, now);
      DrainAnswersEachInOrder(queued, false);
    }

    /** `handleTokenRefreshCompletion(isTokenRefreshed:)`: record the
        outcome with its time, answer the queue front to back, empty it. */
    method HandleTokenRefreshCompletion(isTokenRefreshed: bool, now: int) returns (deliveries: seq<Delivery>)
      requires Valid() && state == ResolvingError
      modifies this
      ensures Valid() && settled == old(settled) + 1 && refreshCount == old(refreshCount)
      ensures state == ErrorResolved(now, isTokenRefreshed) && failures == []
      ensures deliveries == Drain(old(failures), isTokenRefreshed)
    {
      state := ErrorResolved(now, isTokenRefreshed);
      settled := settled + 1;
      deliveries := [];
      var i := 0;
      while i < |failures|
        invariant 0 <= i <= |failures|
        invariant deliveries == Drain(failures[..i], isTokenRefreshed)
        invariant state == ErrorResolved(now, isTokenRefreshed) && failures == old(failures)
        invariant settled == old(settled) + 1 && refreshCount == old(refreshCount)
      {
        assert failures[..i + 1] == failures[..i] + [failures[i]];
        DrainAppend(failures[..i], failures[i], isTokenRefreshed);
        deliveries := deliveries + [Resolution(failures[i], isTokenRefreshed)];
        i := i + 1;
      }
      assert failures[..i] == failures;
      failures := [];
    }
  }

  /** The failures that a run of qualifying failures leaves queued. */
  function Queued(errors: seq<RequestError>, completions: seq<nat>): (q: seq<QueuedFailure>)
    requires |errors| == |completions|
    ensures |q| == |errors|
    ensures forall i :: 0 <= i < |q| ==> q[i] == Pending(errors[i].error, completions[i])
  {
    if errors == [] then []
    else Queued(errors[..|errors| - 1], completions[..|completions| - 1])
         + [Pending(errors[|errors| - 1].error, completions[|completions| - 1])]
  }

  /** Single flight: failures reported one after another, with no refresh
      settling in between, issue at most one refresh. When the handler was
      not yet resolving and they all qualify, exactly one refresh is issued
      and every one of them is queued, in the order reported. */
  method ReportFailures(h: UnauthorizedErrorHandler, errors: seq<RequestError>, completions: seq<nat>)
    returns (answers: seq<Option<ErrorHandlingResult>>)
    requires h.Valid() && |errors| == |completions|
    modifies h
    ensures h.Valid() && h.settled == old(h.settled)
    ensures |answers| == |errors|
    ensures h.refreshCount <= old(h.refreshCount) + 1
    ensures h.refreshCount == old(h.refreshCount) + 1 <==>
              old(h.state) != ResolvingError && h.state == ResolvingError
    ensures !old(h.state).ErrorResolved? && errors != [] &&
            (forall i :: 0 <= i < |errors| ==> ShouldHandleRequestError(errors[i])) ==>
              h.refreshCount == old(h.refreshCount) + (if old(h.state) == ResolvingError then 0 else 1) &&
              h.failures == old(h.failures) + Queued(errors, completions) &&
              (forall i :: 0 <= i < |answers| ==> answers[i] == None)
  {
    answers := [];
    var k := 0;
    ghost var allQueued := !h.state.ErrorResolved?;
    while k < |errors|
      invariant 0 <= k <= |errors| && |answers| == k
      invariant h.Valid() && h.settled == old(h.settled)
      invariant h.refreshCount == old(h.refreshCount) +
                  (if h.state == ResolvingError && old(h.state) != ResolvingError then 1 else 0)
      invariant old(h.state) == ResolvingError ==> h.state == ResolvingError
      invariant allQueued <==> !old(h.state).ErrorResolved?
      invariant allQueued && (forall i :: 0 <= i < k ==> ShouldHandleRequestError(errors[i])) ==>
                  (k > 0 ==> h.state == ResolvingError) &&
                  (k == 0 ==> h.state == old(h.state)) &&
                  h.failures == old(h.failures) + Queued(errors[..k], completions[..k]) &&
                  (forall i :: 0 <= i < k ==> answers[i] == None)
    {
      assert errors[..k + 1][..k] == errors[..k];
      assert completions[..k + 1][..k] == completions[..k];
      var a := h.HandleError(errors[k], completions[k]);
      answers := answers + [a];
      k := k + 1;
    }
    assert errors[..k] == errors && completions[..k] == completions;
  }
}
