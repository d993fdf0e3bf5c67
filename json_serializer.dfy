/** The response serializer that turns a body into a key/value dictionary.
    Parsing itself (`JSONSerialization.jsonObject(with:options:)`) is a
    parameter: a function from bytes to a parsed value or the error it
    throws. What is stated is the order of the checks. */
module JsonSerialization {
  import opened Errors

  /** A parsed JSON value; `JObject` is the only shape that casts to a
      `[Key: Value]` dictionary (with string keys). */
  datatype Json =
    | JObject(fields: map<string, Json>)
    | JArray(items: seq<Json>)
    | JString(text: string)
    | JNumber(number: int)
    | JBool(flag: bool)
    | JNull

  /** `jsonResponseSerializer(with:)`, applied to one response. */
  function JsonResponseSerializer(data: Option<seq<bv8>>, error: Option<Error>,
                                  jsonObject: seq<bv8> -> Result<Json>): (r: Result<map<string, Json>>)
    // an incoming error is the failure, whatever the data
    ensures error.Some? ==> r == Failure(error.value)
    // no error and no data
    ensures error.None? && data.None? ==> r == Failure(InputDataNil)
    // parsing threw: that error is the failure
    ensures error.None? && data.Some? && jsonObject(data.value).Failure? ==>
              r == Failure(jsonObject(data.value).error)
    // parsed, but not a dictionary
    ensures (error.None? && data.Some? && jsonObject(data.value).Success? &&
             !jsonObject(data.value).value.JObject?) ==> r == Failure(KeyValueValidation)
    // success exactly for a dictionary, and then with exactly that dictionary
    ensures r.Success? <==> error.None? && data.Some? && jsonObject(data.value).Success? &&
                            jsonObject(data.value).value.JObject?
    ensures r.Success? ==> r.value == jsonObject(data.value).value.fields
  {
    if error.Some? then Failure(error.value)
    else if data.None? then Failure(InputDataNil)
    else match jsonObject(data.value)
      case Failure(thrown) => Failure(thrown)
      case Success(parsed) =>
        if parsed.JObject? then Success(parsed.fields) else Failure(KeyValueValidation)
  }

  /** A failure of the serializer is always one of four: the incoming error,
      `inputDataNil`, the parser's own error, or `keyValueValidation`. */
  lemma SerializerFailuresAreClosed(data: Option<seq<bv8>>, error: Option<Error>,
                                    jsonObject: seq<bv8> -> Result<Json>)
    ensures var r := JsonResponseSerializer(data, error, jsonObject);
            r.Failure? ==>
              (error.Some? && r.error == error.value) ||
              r.error == InputDataNil ||
              (data.Some? && jsonObject(data.value).Failure? && r.error == jsonObject(data.value).error) ||
              r.error == KeyValueValidation
  {
  }
}
