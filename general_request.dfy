/** A plain request: the endpoint, the headers adapters add before sending,
    and the transport handle of the latest attempt. Adding a header
    replaces an earlier one with the same key and moves it to the end. */
module GeneralRequests {
  import opened Errors

  datatype RequestHeader = RequestHeader(key: string, value: string)

  /** The four `responseX` flavours; they differ only in how the body is
      decoded, which is not part of this model. */
  datatype ResponseKind = ObjectBody | StringBody | JSONBody | DataBody

  /** A transport request (Alamofire's `DataRequest`), made by
      `makeRequest()` or by the multipart encoder: a fresh identity, the
      additional headers it was built with, and the response flavour. */
  datatype Handle = Handle(id: nat, headers: seq<RequestHeader>, kind: ResponseKind)

  /** The headers with the first one carrying `key` taken out. */
  function RemoveFirstKey(s: seq<RequestHeader>, key: string): (r: seq<RequestHeader>)
    // at most one header is removed, and nothing is added
    ensures |s| - 1 <= |r| <= |s|
  {
    if s == [] then []
    else if s[0].key == key then s[1..]
    else [s[0]] + RemoveFirstKey(s[1..], key)
  }

  /** The headers after `addHeader(h)`. */
  function Upsert(s: seq<RequestHeader>, h: RequestHeader): (r: seq<RequestHeader>)
    // the added header comes last; the list grows by at most that one header
    ensures |r| > 0 && r[|r| - 1] == h
    ensures |s| <= |r| <= |s| + 1
  {
    RemoveFirstKey(s, h.key) + [h]
  }

  /** How many headers carry `key`. */
  function KeyCount(s: seq<RequestHeader>, key: string): nat
  {
    if s == [] then 0 else (if s[0].key == key then 1 else 0) + KeyCount(s[1..], key)
  }

  /** The headers whose key is not `key`, in their order. */
  function WithoutKey(s: seq<RequestHeader>, key: string): seq<RequestHeader>
  {
    if s == [] then []
    else (if s[0].key == key then [] else [s[0]]) + WithoutKey(s[1..], key)
  }

  predicate UniqueKeys(s: seq<RequestHeader>)
  {
    forall i, j :: 0 <= i < j < |s| ==> s[i].key != s[j].key
  }

  /** Removing the first match is cutting out the first index that matches. */
  lemma {:induction false} RemoveFirstKeyAt(s: seq<RequestHeader>, key: string, i: nat)
    requires i < |s| && s[i].key == key
    requires forall j :: 0 <= j < i ==> s[j].key != key
    ensures RemoveFirstKey(s, key) == s[..i] + s[i + 1..]
  {
    if i > 0 {
      RemoveFirstKeyAt(s[1..], key, i - 1);
      assert s[1..][..i - 1] + s[1..][i..] == s[1..i] + s[i + 1..];
      assert [s[0]] + s[1..i] == s[..i];
    }
  }

  /** Without a match nothing is removed. */
  lemma {:induction false} RemoveFirstKeyAbsent(s: seq<RequestHeader>, key: string)
    requires forall j :: 0 <= j < |s| ==> s[j].key != key
    ensures RemoveFirstKey(s, key) == s
  {
    if s != [] {
      RemoveFirstKeyAbsent(s[1..], key);
    }
  }

  /** Removing the first match removes exactly one header carrying `key`
      when there is one, and leaves every other header where it was. */
  lemma {:induction false} RemoveFirstKeyEffect(s: seq<RequestHeader>, key: string)
    ensures KeyCount(RemoveFirstKey(s, key), key) == if KeyCount(s, key) > 0 then KeyCount(s, key) - 1 else 0
    ensures |RemoveFirstKey(s, key)| == if KeyCount(s, key) > 0 then |s| - 1 else |s|
    ensures WithoutKey(RemoveFirstKey(s, key), key) == WithoutKey(s, key)
  {
    if s != [] {
      RemoveFirstKeyEffect(s[1..], key);
      if s[0].key != key {
        var t := RemoveFirstKey(s[1..], key);
        assert ([s[0]] + t)[1..] == t;
      }
    }
  }

  lemma {:induction false} KeyCountAppend(s: seq<RequestHeader>, h: RequestHeader, key: string)
    ensures KeyCount(s + [h], key) == KeyCount(s, key) + (if h.key == key then 1 else 0)
  {
    if s != [] {
      assert (s + [h])[1..] == s[1..] + [h];
      KeyCountAppend(s[1..], h, key);
    } else {
      assert [h][1..] == [];
    }
  }

  lemma {:induction false} WithoutKeyAppend(s: seq<RequestHeader>, h: RequestHeader, key: string)
    ensures WithoutKey(s + [h], key) == WithoutKey(s, key) + (if h.key == key then [] else [h])
  {
    if s != [] {
      assert (s + [h])[1..] == s[1..] + [h];
      WithoutKeyAppend(s[1..], h, key);
    } else {
      assert [h][1..] == [];
    }
  }

  /** `addHeader(h)`: `h` ends up last; headers with other keys keep their
      order; only the first header with `h`'s key is dropped, so the count
      of that key stays the same or becomes one; the list grows by one
      exactly for a new key. */
  lemma UpsertEffect(s: seq<RequestHeader>, h: RequestHeader)
    ensures var r := Upsert(s, h);
            |r| > 0 && r[|r| - 1] == h &&
            |r| == (if KeyCount(s, h.key) == 0 then |s| + 1 else |s|) &&
            WithoutKey(r, h.key) == WithoutKey(s, h.key) &&
            KeyCount(r, h.key) == (if KeyCount(s, h.key) == 0 then 1 else KeyCount(s, h.key))
  {
    RemoveFirstKeyEffect(s, h.key);
    KeyCountAppend(RemoveFirstKey(s, h.key), h, h.key);
    WithoutKeyAppend(RemoveFirstKey(s, h.key), h, h.key);
  }

  /** With unique keys before, `addHeader(h)` keeps keys unique and leaves
      `h` as the only header with its key. */
  lemma UpsertKeepsKeysUnique(s: seq<RequestHeader>, h: RequestHeader)
    requires UniqueKeys(s)
    ensures UniqueKeys(Upsert(s, h))
    ensures forall i :: 0 <= i < |Upsert(s, h)| - 1 ==> Upsert(s, h)[i].key != h.key
  {
    var rest := RemoveFirstKey(s, h.key);
    if i :| 0 <= i < |s| && s[i].key == h.key {
      RemoveFirstKeyAt(s, h.key, i);
      assert rest == s[..i] + s[i + 1..];
      forall a | 0 <= a < |rest|
        ensures rest[a] == s[if a < i then a else a + 1]
      {
      }
    } else {
      RemoveFirstKeyAbsent(s, h.key);
    }
    assert UniqueKeys(rest) && forall a :: 0 <= a < |rest| ==> rest[a].key != h.key;
    var r := rest + [h];
    assert Upsert(s, h) == r;
    forall a, b | 0 <= a < b < |r|
      ensures r[a].key != r[b].key
    {
      if b == |rest| {
        assert r[a] == rest[a];
      } else {
        assert r[a] == rest[a] && r[b] == rest[b];
      }
    }
  }

  class GeneralRequest {
    const endpoint: Endpoint
    var additionalHeaders: seq<RequestHeader>
    /** The transport request of the latest `responseX` call. */
    var request: Option<Handle>
    /** How many transport requests this request has made; gives each a
        fresh identity. */
    var madeCount: nat

    ghost predicate Valid()
      reads this
    {
      UniqueKeys(additionalHeaders) &&
      (request.Some? ==> request.value.id < madeCount)
    }

    constructor (endpoint: Endpoint)
      ensures Valid()
      ensures this.endpoint == endpoint
      ensures additionalHeaders == [] && request == None && madeCount == 0
    {
      this.endpoint := endpoint;
      additionalHeaders := [];
      request := None;
      madeCount := 0;
    }

    /** `responseObject`, `responseString`, `responseJSON`, `responseData`:
        each replaces the stored handle by a freshly made one, built with
        the headers the request has now. The previous handle is dropped,
        not cancelled. */
    method Respond(kind: ResponseKind) returns (made: Handle)
      requires Valid()
      modifies this`request, this`madeCount
      ensures Valid()
      ensures made == Handle(old(madeCount), additionalHeaders, kind)
      ensures request == Some(made) && madeCount == old(madeCount) + 1
      ensures old(request).Some? ==> made.id != old(request).value.id
    {
      made := Handle(madeCount, additionalHeaders, kind);
      madeCount := madeCount + 1;
      request := Some(made);
    }

    /** `cancel()`: asks only the current handle to cancel, if there is one;
        the request's own state is left as it is. */
    method Cancel() returns (cancelled: Option<Handle>)
      requires Valid()
      ensures cancelled == request
    {
      cancelled := request;
    }

    /** `addHeader(_:)`: finds the first header with the same key, removes
        it, and appends the new one. */
    method AddHeader(header: RequestHeader)
      requires Valid()
      modifies this`additionalHeaders
      ensures Valid()
      ensures additionalHeaders == Upsert(old(additionalHeaders), header)
    {
      UpsertKeepsKeysUnique(additionalHeaders, header);
      var headers := additionalHeaders;
      var i := 0;
      while i < |headers| && headers[i].key != header.key
        invariant 0 <= i <= |headers|
        invariant forall j :: 0 <= j < i ==> headers[j].key != header.key
      {
        i := i + 1;
      }
      if i < |headers| {
        RemoveFirstKeyAt(headers, header.key, i);
        headers := headers[..i] + headers[i + 1..];
      } else {
        RemoveFirstKeyAbsent(headers, header.key);
      }
      additionalHeaders := headers + [header];
    }
  }
}
