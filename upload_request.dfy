/** A multipart upload request. Every start re-encodes the body; the
    encoder calls back later with a transport request or an error. A
    cancelled request delivers nothing from those callbacks and keeps no
    transport request.

    The encoder's callback is an event of its own here (`EncodingCompleted`),
    naming which start it answers; the transport's later response is not
    part of this model, only the hand-over of the stored completion to the
    transport request. */
module UploadRequests {
  import opened Errors
  import opened GeneralRequests

  /** What the multipart encoder reports for one start. */
  datatype EncodingResult = Encoded(request: Handle) | EncodingFailed(error: Error)

  /** What an encoder callback leads to. */
  datatype Effect =
    | NoEffect
    // the transport request is validated and sent, with its response going to the completion
    | Sent(request: Handle, completion: nat)
    // the completion receives a failure response carrying the encoding error
    | Delivered(completion: nat, error: Error)

  /** The request's fields: the stored completion, the cancel flag, the
      current transport request, and the completion each start captured (one
      entry per multipart encoding started). */
  datatype Lifecycle = Lifecycle(
    completion: Option<nat>,
    isCancelled: bool,
    request: Option<Handle>,
    attempts: seq<nat>)

  const Initial := Lifecycle(None, false, None, [])

  /** A cancelled request holds neither completion nor transport request; a
      transport request is only held with a completion; and an encoder
      callback can only be outstanding once a completion was stored. */
  ghost predicate Consistent(s: Lifecycle)
  {
    (s.isCancelled ==> s.completion.None? && s.request.None?) &&
    (s.request.Some? ==> s.completion.Some?) &&
    (s.completion.None? && !s.isCancelled ==> s.attempts == [])
  }

  /** `response(completion:)`: store the completion, drop (not cancel) the
      previous transport request, and start: clear the cancel flag and
      begin encoding the body afresh. */
  function AfterResponse(s: Lifecycle, completion: nat): (t: Lifecycle)
    ensures t.completion == Some(completion) && !t.isCancelled && t.request.None?
    ensures t.attempts == s.attempts + [completion]
  {
    Lifecycle(Some(completion), false, None, s.attempts + [completion])
  }

  /** `retry()`: re-run `response` with the stored completion, if any. */
  function AfterRetry(s: Lifecycle): (t: Lifecycle)
    ensures s.completion.None? ==> t == s
    ensures s.completion.Some? ==> t == AfterResponse(s, s.completion.value)
  {
    match s.completion
    case None => s
    case Some(c) => AfterResponse(s, c)
  }

  /** `cancel()`: set the flag, let go of the transport request and the
      completion. */
  function AfterCancel(s: Lifecycle): (t: Lifecycle)
    ensures t.isCancelled && t.completion.None? && t.request.None? && t.attempts == s.attempts
  {
    s.(isCancelled := true, request := None, completion := None)
  }

  /** The encoder's callback for start number `k`: guarded by the cancel
      flag as it is when the callback runs. */
  function AfterEncoding(s: Lifecycle, k: nat, result: EncodingResult): (r: (Lifecycle, Effect))
    requires k < |s.attempts|
    ensures s.isCancelled ==> r == (s, NoEffect)
    ensures !s.isCancelled && result.Encoded? ==>
              r.0 == s.(request := Some(result.request)) && r.1 == Sent(result.request, s.attempts[k])
    ensures !s.isCancelled && result.EncodingFailed? ==>
              r.0 == s && r.1 == Delivered(s.attempts[k], result.error)
  {
    if s.isCancelled then (s, NoEffect)
    else match result
      case Encoded(request) => (s.(request := Some(request)), Sent(request, s.attempts[k]))
      case EncodingFailed(error) => (s, Delivered(s.attempts[k], error))
  }

  /** Every transition keeps the lifecycle consistent. */
  lemma TransitionsKeepConsistent(s: Lifecycle, c: nat, k: nat, result: EncodingResult)
    requires Consistent(s)
    ensures Consistent(AfterResponse(s, c)) && Consistent(AfterRetry(s)) && Consistent(AfterCancel(s))
    ensures k < |s.attempts| ==> Consistent(AfterEncoding(s, k, result).0)
  {
  }

  /** Retrying is refused before the first `response`, and allowed after it:
      then it starts a new attempt, re-encoding the body, for the same
      completion. */
  lemma RetryNeedsResponse(c: nat)
    ensures AfterRetry(Initial) == Initial
    ensures var s := AfterResponse(Initial, c);
            AfterRetry(s) == AfterResponse(s, c) && |AfterRetry(s).attempts| == 2 && AfterRetry(s).attempts[1] == c
  {
  }

  /** Cancelling twice is cancelling once, and after a cancel a retry does
      nothing. */
  lemma CancelIdempotentAndFinal(s: Lifecycle)
    ensures AfterCancel(AfterCancel(s)) == AfterCancel(s)
    ensures AfterRetry(AfterCancel(s)) == AfterCancel(s)
  {
  }

  /** After a cancel, whatever the encoder reports for any start delivers
      nothing and stores nothing, however many callbacks come in. */
  lemma {:induction false} CancelledStaysSilent(s: Lifecycle, reports: seq<(nat, EncodingResult)>)
    requires s.isCancelled
    requires forall i :: 0 <= i < |reports| ==> reports[i].0 < |s.attempts|
    ensures Replay(s, reports) == (s, [])
  {
    if reports != [] {
      CancelledStaysSilent(s, reports[1..]);
    }
  }

  /** Feeds encoder callbacks one by one; collects the effects that are not
      `NoEffect`. */
  function Replay(s: Lifecycle, reports: seq<(nat, EncodingResult)>): (Lifecycle, seq<Effect>)
    requires forall i :: 0 <= i < |reports| ==> reports[i].0 < |s.attempts|
    decreases |reports|
  {
    if reports == [] then (s, [])
    else
      var (t, e) := AfterEncoding(s, reports[0].0, reports[0].1);
      assert t.attempts == s.attempts;
      var (u, es) := Replay(t, reports[1..]);
      (u, if e == NoEffect then es else [e] + es)
  }

  class UploadRequest {
    var completion: Option<nat>
    var isCancelled: bool
    var request: Option<Handle>
    var attempts: seq<nat>

    ghost function Snapshot(): Lifecycle
      reads this
    {
      Lifecycle(completion, isCancelled, request, attempts)
    }

    ghost predicate Valid()
      reads this
    {
      Consistent(Snapshot())
    }

    constructor ()
      ensures Valid() && Snapshot() == Initial
    {
      completion := None;
      isCancelled := false;
      request := None;
      attempts := [];
    }

    /** `response(completion:)`. */
    method Response(c: nat)
      requires Valid()
      modifies this
      ensures Valid() && Snapshot() == AfterResponse(old(Snapshot()), c)
    {
      completion := Some(c);
      request := None;
      Start(c);
    }

    /** `retry()`. */
    method Retry()
      requires Valid()
      modifies this
      ensures Valid() && Snapshot() == AfterRetry(old(Snapshot()))
    {
      if completion.Some? {
        Response(completion.value);
      }
    }

    /** `cancel()`; returns the transport request it asks to cancel. */
    method Cancel() returns (cancelled: Option<Handle>)
      requires Valid()
      modifies this
      ensures Valid() && Snapshot() == AfterCancel(old(Snapshot()))
      ensures cancelled == old(request)
    {
      isCancelled := true;
      cancelled := request;
      request := None;
      completion := None;
    }

    /** `start(sending:failure:)`: clears the flag and asks the session to
        encode the multipart body again; the callback to come will answer
        the completion captured here. */
    method Start(c: nat)
      modifies this
      ensures isCancelled == false && attempts == old(attempts) + [c]
      ensures completion == old(completion) && request == old(request)
    {
      isCancelled := false;
      attempts := attempts + [c];
    }

    /** The encoder's callback for start number `k`, with the `sending` and
        `failure` closures of `response(completion:)` inlined. */
    method EncodingCompleted(k: nat, result: EncodingResult) returns (effect: Effect)
      requires Valid() && k < |attempts|
      modifies this
      ensures Valid()
      ensures (Snapshot(), effect) == AfterEncoding(old(Snapshot()), k, result)
    {
      // `sending` and `failure` repeat this guard; they run in the same
      // step as the encoder's callback and read the same flag
      if isCancelled {
        return NoEffect;
      }
      match result {
        case Encoded(r) =>
          // validate(), then sending(r)
          request := Some(r);
          effect := Sent(r, attempts[k]);
        case EncodingFailed(error) =>
          effect := Delivered(attempts[k], error);
      }
    }
  }
}
