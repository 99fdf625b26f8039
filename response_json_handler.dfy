/**
 * The handler that reads a JSON body: a successful response gives the parsed
 * value, an unsuccessful one goes through an error mapper, and a body that
 * cannot be parsed gives the generic error.
 */
module ResponseJsonHandler {
  import opened Js
  import opened FetchApi
  import opened HttpResponses

  /** What a JSON error mapper does with an unsuccessful response and its parsed body. */
  type JsonErrorMapper = (Response, Json) -> Completion<HttpResponse<Value>>

  /** The JSON object an `HttpError` is: its `errorCode`, its `statusArguments` and its other members. */
  function AsJson(error: HttpError): (j: Json)
    ensures j.JsonObject? && j.errorCode == Some(error.errorCode)
    ensures j.statusArguments == error.statusArguments && j.otherFields == error.otherFields
  {
    JsonObject(Some(error.errorCode), error.statusArguments, error.otherFields)
  }

  /** Two errors that are the same JSON object are the same error. */
  lemma AsJsonInjective(e1: HttpError, e2: HttpError)
    requires AsJson(e1) == AsJson(e2)
    ensures e1 == e2
  {
  }

  /**
   * `defaultJsonErrorMapper(response, json)`: a body with an `errorCode` is the
   * error itself, every member kept; any other body gives the generic error;
   * reading `errorCode` of a `null` body throws a TypeError.
   */
  function DefaultJsonErrorMapper(response: Response, json: Json): (r: Completion<HttpResponse<Value>>)
    ensures r.Threw? <==> json.JsonNull?
    ensures r.Returned? ==> r.value.Failure?
    ensures json.JsonObject? && json.errorCode.Some? ==> r.Returned? && AsJson(r.value.error) == json
    ensures json.JsonOther? || (json.JsonObject? && json.errorCode.None?) ==> r == Returned(Failure(GenericError))
  {
    match json
    case JsonNull => Threw(PropertyOfNullish)
    case JsonOther(_) => Returned(Failure(GenericError))
    case JsonObject(errorCode, statusArguments, otherFields) =>
      if errorCode.None? then Returned(Failure(GenericError))
      else Returned(Failure(HttpError(errorCode.value, statusArguments, otherFields)))
  }

  /**
   * `toJsonResponse(response, jsonErrorMapper)`: the chain
   * `response.json().then(...).catch(...)`. It never rejects.
   */
  function ToJsonResponse(response: Response, jsonErrorMapper: JsonErrorMapper): (r: Settled<HttpResponse<Value>>)
    ensures r.Fulfilled?
    ensures response.body.json.None? ==> r == Fulfilled(Failure(GenericError))
    ensures response.body.json.Some? && response.Ok() ==>
      r == Fulfilled(Success(Parsed(response.body.json.value)))
    ensures response.body.json.Some? && !response.Ok() ==>
      var mapped := jsonErrorMapper(response, response.body.json.value);
      r == Fulfilled(if mapped.Returned? then mapped.value else Failure(GenericError))
  {
    Catch(
      Then(ReadJson(response), (json: Json) =>
        if response.Ok() then Returned(Fulfilled(Success(Parsed(json))))
        else Lift(jsonErrorMapper(response, json))),
      (error: Thrown) => Returned(Fulfilled(Failure(GenericError))))
  }

  /** `toJsonResponse` used as a handler, with the default error mapper. */
  function ToJsonResponseHandler(response: Response): Settled<HttpResponse<Value>>
  {
    ToJsonResponse(response, DefaultJsonErrorMapper)
  }

  /**
   * With the default mapper, an unsuccessful response whose body carries an
   * `errorCode` yields that body as the error, every member included.
   */
  lemma DefaultMapperKeepsBodyError(response: Response, body: Json)
    requires !response.Ok() && response.body.json == Some(body)
    requires body.JsonObject? && body.errorCode.Some?
    ensures var r := ToJsonResponseHandler(response);
      r.Fulfilled? && r.value.Failure? && AsJson(r.value.error) == body
  {
  }

  /** With the default mapper, an unsuccessful response with a `null` body yields the generic error. */
  lemma DefaultMapperNullBody(response: Response)
    requires !response.Ok() && response.body.json == Some(JsonNull)
    ensures ToJsonResponseHandler(response) == Fulfilled(Failure(GenericError))
  {
  }
}
