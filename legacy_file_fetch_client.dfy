/**
 * The older file client of `src/lib/client`: `fetchClient` with the handlers
 * `validateBasicStatusCodes`, `octetStreamTypeValidator`,
 * `toArrayBufferResponse`, in that order.
 */
module LegacyFileFetchClient {
  import opened Js
  import opened FetchApi
  import opened HttpResponses
  import opened FetchResponseHandlers
  import opened ResponseJsonHandler
  import opened FetchClients
  import opened LegacyContentTypeValidator
  import opened LegacyFetchStatusValidators
  import ResponseArrayBufferHandler

  /**
   * The older `toArrayBufferResponse(response, jsonErrorMapper)`, an async
   * function: on a successful response the awaited bytes, or the generic error
   * when the read rejects; otherwise the JSON handler's outcome.
   */
  function ToArrayBufferResponse(response: Response, jsonErrorMapper: JsonErrorMapper): (r: Settled<HttpResponse<Value>>)
    ensures r.Fulfilled?
    ensures response.Ok() && response.body.arrayBuffer.Some? ==>
      r == Fulfilled(Success(Bytes(response.body.arrayBuffer.value)))
    ensures response.Ok() && response.body.arrayBuffer.None? ==> r == Fulfilled(Failure(GenericError))
    ensures !response.Ok() ==> r == ToJsonResponse(response, jsonErrorMapper)
  {
    if response.Ok() then
      match ReadArrayBuffer(response)
      case Fulfilled(bytes) => Fulfilled(Success(Bytes(bytes)))
      case Rejected(_) => ToErrorResponsePromise(GenericError)
    else
      ToJsonResponse(response, jsonErrorMapper)
  }

  /** The async version and the promise-chain version of the handler agree on every response. */
  lemma SameAsArrayBufferHandler(response: Response, jsonErrorMapper: JsonErrorMapper)
    ensures ToArrayBufferResponse(response, jsonErrorMapper)
         == ResponseArrayBufferHandler.ToArrayBufferResponse(response, jsonErrorMapper)
  {
  }

  /** `octetStreamTypeValidator(response)`: the content type must contain `application/octet-stream`. */
  function OctetStreamTypeValidator(response: Response): (r: HandlerResult)
    ensures r.Defer? <==> IsOctetStream(response)
    ensures !r.Defer? ==> r == Answer(Fulfilled(Failure(GenericError)))
  {
    ContentTypeValidator(response, "application/octet-stream")
  }

  /** The handlers of `fileFetchClient`, in order. */
  function FileHandlers(): seq<Handler>
  {
    [ValidateBasicStatusCodes,
     OctetStreamTypeValidator,
     (response: Response) => Answer(ToArrayBufferResponse(response, DefaultJsonErrorMapper))]
  }

  /** `fileFetchClient(httpRequest)`, given the settlement of the transport. */
  function FileFetchClient(transport: Settled<Response>): Settled<HttpResponse<Value>>
  {
    FetchClient(transport, FileHandlers())
  }

  ghost predicate IsOctetStream(response: Response)
  {
    HeaderGet(response.headers, "content-type").Some?
    && Contains(HeaderGet(response.headers, "content-type").value, "application/octet-stream")
  }

  /** The pipeline on a received response, case by case: status first, then content type, then the body. */
  lemma {:induction false} Pipeline(response: Response)
    ensures response.status == 401 ==> FileFetchClient(Fulfilled(response)) == Fulfilled(Failure(UnauthorizedError))
    ensures response.status == 403 ==> FileFetchClient(Fulfilled(response)) == Fulfilled(Failure(ForbiddenError))
    ensures response.status == 404 ==> FileFetchClient(Fulfilled(response)) == Fulfilled(Failure(NotFoundError))
    ensures response.status == 204 ==> FileFetchClient(Fulfilled(response)) == Fulfilled(Success(Null))
    ensures response.status !in {401, 403, 404, 204} && !IsOctetStream(response) ==>
      FileFetchClient(Fulfilled(response)) == Fulfilled(Failure(GenericError))
    ensures response.status !in {401, 403, 404, 204} && IsOctetStream(response) ==>
      FileFetchClient(Fulfilled(response)) == ToArrayBufferResponse(response, DefaultJsonErrorMapper)
  {
    var hs := FileHandlers();
    if response.status in {401, 403, 404, 204} {
      FirstDecidingHandler(response, hs, 0);
    } else if !IsOctetStream(response) {
      assert hs[0](response).Defer?;
      FirstDecidingHandler(response, hs, 1);
    } else {
      assert hs[0](response).Defer?;
      assert hs[1](response).Defer?;
      FirstDecidingHandler(response, hs, 2);
    }
  }

  /** A successful octet-stream response gives its bytes. */
  lemma FileDownloaded(response: Response, bytes: seq<byte>)
    requires response.Ok() && response.status != 204 && IsOctetStream(response)
    requires response.body.arrayBuffer == Some(bytes)
    ensures FileFetchClient(Fulfilled(response)) == Fulfilled(Success(Bytes(bytes)))
  {
    Pipeline(response);
  }
}
