/**
 * The handler that settles the two status codes whose body is not read:
 * 403 Forbidden (section 15.5.4 of RFC 9110) and 204 No Content (section
 * 15.3.5 of RFC 9110).
 */
module ValidateBasicStatusCodeHandler {
  import opened Js
  import opened FetchApi
  import opened HttpResponses
  import opened FetchResponseHandlers

  /** `validateBasicStatusCodes(response)`. */
  function ValidateBasicStatusCodes(response: Response): (r: HandlerResult)
    ensures r == Answer(Fulfilled(Failure(ForbiddenError))) <==> response.status == 403
    ensures r == Answer(Fulfilled(Success(Null))) <==> response.status == 204
    ensures r.Defer? <==> response.status != 403 && response.status != 204
  {
    if response.status == 403 then Answer(ToErrorResponsePromise(ForbiddenError))
    else if response.status == 204 then Answer(Fulfilled(Success(Null)))
    else Defer
  }

  /** The decision reads the status code only, never the headers or the body. */
  lemma StatusOnly(r1: Response, r2: Response)
    requires r1.status == r2.status
    ensures ValidateBasicStatusCodes(r1) == ValidateBasicStatusCodes(r2)
  {
  }
}
