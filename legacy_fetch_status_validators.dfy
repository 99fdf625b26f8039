/**
 * The older status-code check of `src/lib/client`: besides 403 Forbidden and
 * 204 No Content it settles 401 Unauthorized (section 15.5.2 of RFC 9110) and
 * 404 Not Found (section 15.5.5 of RFC 9110).
 */
module LegacyFetchStatusValidators {
  import opened Js
  import opened FetchApi
  import opened HttpResponses
  import opened FetchResponseHandlers
  import ValidateBasicStatusCodeHandler

  /**
   * The errors this validator uses but no module of the library defines; they
   * are given codes of their own, distinct from the catalogue's.
   */
  const UnauthorizedError: HttpError := HttpError("UNAUTHORIZED_ERROR", None, map[])
  const NotFoundError: HttpError := HttpError("NOT_FOUND_ERROR", None, map[])

  /** `validateBasicStatusCodes(response)`, the older version. */
  function ValidateBasicStatusCodes(response: Response): (r: HandlerResult)
    ensures r == Answer(Fulfilled(Failure(UnauthorizedError))) <==> response.status == 401
    ensures r == Answer(Fulfilled(Failure(ForbiddenError))) <==> response.status == 403
    ensures r == Answer(Fulfilled(Failure(NotFoundError))) <==> response.status == 404
    ensures r == Answer(Fulfilled(Success(Null))) <==> response.status == 204
    ensures r.Defer? <==> response.status !in {401, 403, 404, 204}
  {
    if response.status == 401 then Answer(ToErrorResponsePromise(UnauthorizedError))
    else if response.status == 403 then Answer(ToErrorResponsePromise(ForbiddenError))
    else if response.status == 404 then Answer(ToErrorResponsePromise(NotFoundError))
    else if response.status == 204 then Answer(Fulfilled(Success(Null)))
    else Defer
  }

  /**
   * The older validator agrees with `validateBasicStatusCodes` on every status
   * but 401 and 404, which the newer one leaves to the later handlers.
   */
  lemma AgreesExceptUnauthorizedAndNotFound(response: Response)
    ensures response.status != 401 && response.status != 404 ==>
      ValidateBasicStatusCodes(response) == ValidateBasicStatusCodeHandler.ValidateBasicStatusCodes(response)
    ensures response.status == 401 || response.status == 404 ==>
      ValidateBasicStatusCodeHandler.ValidateBasicStatusCodes(response).Defer?
  {
  }
}
