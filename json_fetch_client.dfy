/**
 * The client for JSON REST APIs: `fetchClient` with the handlers
 * `validateBasicStatusCodes`, `jsonContentTypeValidator`, `toJsonResponse`,
 * in that order.
 */
module JsonFetchClient {
  import opened Js
  import opened FetchApi
  import opened HttpResponses
  import opened FetchResponseHandlers
  import opened ValidateBasicStatusCodeHandler
  import opened ValidateContentTypeHandler
  import opened ResponseJsonHandler
  import opened FetchClients

  /** `jsonContentTypeValidator(response)`: the content type must contain `json`. */
  function JsonContentTypeValidator(response: Response): (r: HandlerResult)
    ensures r.Defer? <==> HeaderGet(response.headers, "content-type").Some?
                          && Contains(HeaderGet(response.headers, "content-type").value, "json")
    ensures !r.Defer? ==> r == Answer(Fulfilled(Failure(GenericError)))
  {
    ValidateContentType(response, "json")
  }

  /** The handlers of `defaultJsonFetchClient`, in order. */
  function DefaultJsonHandlers(): seq<Handler>
  {
    [ValidateBasicStatusCodes,
     JsonContentTypeValidator,
     (response: Response) => Answer(ToJsonResponseHandler(response))]
  }

  /** `defaultJsonFetchClient(httpRequest)`, given the settlement of the transport. */
  function DefaultJsonFetchClient(transport: Settled<Response>): Settled<HttpResponse<Value>>
  {
    FetchClient(transport, DefaultJsonHandlers())
  }

  /** JSON content type. */
  ghost predicate IsJson(response: Response)
  {
    HeaderGet(response.headers, "content-type").Some?
    && Contains(HeaderGet(response.headers, "content-type").value, "json")
  }

  /** The pipeline on a received response, case by case. */
  lemma {:induction false} Pipeline(response: Response)
    ensures response.status == 403 ==>
      DefaultJsonFetchClient(Fulfilled(response)) == Fulfilled(Failure(ForbiddenError))
    ensures response.status == 204 ==>
      DefaultJsonFetchClient(Fulfilled(response)) == Fulfilled(Success(Null))
    ensures response.status != 403 && response.status != 204 && !IsJson(response) ==>
      DefaultJsonFetchClient(Fulfilled(response)) == Fulfilled(Failure(GenericError))
    ensures response.status != 403 && response.status != 204 && IsJson(response) ==>
      DefaultJsonFetchClient(Fulfilled(response)) == ToJsonResponseHandler(response)
  {
    var hs := DefaultJsonHandlers();
    if response.status == 403 || response.status == 204 {
      FirstDecidingHandler(response, hs, 0);
    } else if !IsJson(response) {
      assert hs[0](response).Defer?;
      FirstDecidingHandler(response, hs, 1);
    } else {
      assert hs[0](response).Defer?;
      assert hs[1](response).Defer?;
      FirstDecidingHandler(response, hs, 2);
    }
  }

  /** Status 403 gives the forbidden error whatever the headers or the body. */
  lemma Forbidden(response: Response)
    requires response.status == 403
    ensures DefaultJsonFetchClient(Fulfilled(response)) == Fulfilled(Failure(ForbiddenError))
  {
    Pipeline(response);
  }

  /** Status 204 gives a `null` success, even without a content type. */
  lemma NoContent(response: Response)
    requires response.status == 204
    ensures DefaultJsonFetchClient(Fulfilled(response)) == Fulfilled(Success(Null))
  {
    Pipeline(response);
  }

  /** A successful JSON response gives its parsed body. */
  lemma JsonSuccess(response: Response, json: Json)
    requires response.Ok() && response.status != 204 && IsJson(response)
    requires response.body.json == Some(json)
    ensures DefaultJsonFetchClient(Fulfilled(response)) == Fulfilled(Success(Parsed(json)))
  {
    Pipeline(response);
  }

  /** An unsuccessful JSON response whose body carries an `errorCode` gives that body as the error. */
  lemma JsonDomainError(response: Response, body: Json)
    requires !response.Ok() && response.status != 403 && IsJson(response)
    requires response.body.json == Some(body) && body.JsonObject? && body.errorCode.Some?
    ensures var r := DefaultJsonFetchClient(Fulfilled(response));
      r.Fulfilled? && r.value.Failure? && AsJson(r.value.error) == body
  {
    Pipeline(response);
  }

  /** A response without a JSON content type gives the generic error, whatever its body. */
  lemma NotJson(response: Response)
    requires response.status != 403 && response.status != 204 && !IsJson(response)
    ensures DefaultJsonFetchClient(Fulfilled(response)) == Fulfilled(Failure(GenericError))
  {
    Pipeline(response);
  }
}
