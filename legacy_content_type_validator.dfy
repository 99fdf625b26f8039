/**
 * The older content-type check of `src/lib/client`: the same rule as
 * `validateContentType`, written on its own.
 */
module LegacyContentTypeValidator {
  import opened Js
  import opened FetchApi
  import opened HttpResponses
  import opened FetchResponseHandlers
  import ValidateContentTypeHandler

  /**
   * `contentTypeValidator(response, searchContentType)`: the generic error when
   * the `content-type` header is missing or does not contain the searched text,
   * else defer.
   */
  function ContentTypeValidator(response: Response, searchContentType: string): (r: HandlerResult)
    ensures r.Defer? <==> HeaderGet(response.headers, "content-type").Some?
                          && Contains(HeaderGet(response.headers, "content-type").value, searchContentType)
    ensures !r.Defer? ==> r.Answer? && r.promise == Fulfilled(Failure(GenericError))
  {
    match HeaderGet(response.headers, "content-type")
    case None => Answer(ToErrorResponsePromise(GenericError))
    case Some(contentType) =>
      if IndexOf(contentType, searchContentType) == -1 then Answer(ToErrorResponsePromise(GenericError))
      else Defer
  }

  /** The older validator decides exactly as `validateContentType` does. */
  lemma SameAsValidateContentType(response: Response, searchContentType: string)
    ensures ContentTypeValidator(response, searchContentType)
         == ValidateContentTypeHandler.ValidateContentType(response, searchContentType)
  {
  }
}
