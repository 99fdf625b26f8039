/**
 * The handler that reads a text body on a successful response and defers to
 * the JSON handler otherwise.
 */
module ResponseTextHandler {
  import opened Js
  import opened FetchApi
  import opened HttpResponses
  import opened ResponseJsonHandler

  /** `toTextResponse(response, jsonErrorMapper)`. It never rejects. */
  function ToTextResponse(response: Response, jsonErrorMapper: JsonErrorMapper): (r: Settled<HttpResponse<Value>>)
    ensures r.Fulfilled?
    ensures response.Ok() && response.body.text.Some? ==> r == Fulfilled(Success(Text(response.body.text.value)))
    ensures response.Ok() && response.body.text.None? ==> r == Fulfilled(Failure(GenericError))
    ensures !response.Ok() ==> r == ToJsonResponse(response, jsonErrorMapper)
  {
    if response.Ok() then
      Catch(
        Then(ReadText(response), (text: string) => Returned(Fulfilled(Success(Text(text))))),
        (error: Thrown) => Returned(Fulfilled(Failure(GenericError))))
    else
      ToJsonResponse(response, jsonErrorMapper)
  }

  /** `toTextResponse` used as a handler, with the default error mapper. */
  function ToTextResponseHandler(response: Response): Settled<HttpResponse<Value>>
  {
    ToTextResponse(response, DefaultJsonErrorMapper)
  }
}
