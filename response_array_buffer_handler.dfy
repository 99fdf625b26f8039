/**
 * The handler that reads a body as bytes on a successful response and defers
 * to the JSON handler otherwise.
 */
module ResponseArrayBufferHandler {
  import opened Js
  import opened FetchApi
  import opened HttpResponses
  import opened ResponseJsonHandler

  /** `toArrayBufferResponse(response, jsonErrorMapper)`. It never rejects. */
  function ToArrayBufferResponse(response: Response, jsonErrorMapper: JsonErrorMapper): (r: Settled<HttpResponse<Value>>)
    ensures r.Fulfilled?
    ensures response.Ok() && response.body.arrayBuffer.Some? ==>
      r == Fulfilled(Success(Bytes(response.body.arrayBuffer.value)))
    ensures response.Ok() && response.body.arrayBuffer.None? ==> r == Fulfilled(Failure(GenericError))
    ensures !response.Ok() ==> r == ToJsonResponse(response, jsonErrorMapper)
  {
    if response.Ok() then
      Catch(
        Then(ReadArrayBuffer(response), (bytes: seq<byte>) => Returned(Fulfilled(Success(Bytes(bytes))))),
        (error: Thrown) => Returned(Fulfilled(Failure(GenericError))))
    else
      ToJsonResponse(response, jsonErrorMapper)
  }

  /** `toArrayBufferResponse` used as a handler, with the default error mapper. */
  function ToArrayBufferResponseHandler(response: Response): Settled<HttpResponse<Value>>
  {
    ToArrayBufferResponse(response, DefaultJsonErrorMapper)
  }
}
