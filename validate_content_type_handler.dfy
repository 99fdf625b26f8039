/**
 * The handler that checks that the `content-type` header of a response
 * mentions a given (possibly partial) content type.
 */
module ValidateContentTypeHandler {
  import opened Js
  import opened FetchApi
  import opened HttpResponses
  import opened FetchResponseHandlers

  /**
   * `validateContentType(response, searchContentType)`: the generic error when
   * the header is missing or does not contain the searched text, else defer.
   */
  function ValidateContentType(response: Response, searchContentType: string): (r: HandlerResult)
    ensures r.Defer? <==> HeaderGet(response.headers, "content-type").Some?
                          && Contains(HeaderGet(response.headers, "content-type").value, searchContentType)
    ensures !r.Defer? ==> r == Answer(Fulfilled(Failure(GenericError)))
  {
    var contentType := HeaderGet(response.headers, "content-type");
    if contentType.None? || IndexOf(contentType.value, searchContentType) == -1 then
      Answer(ToErrorResponsePromise(GenericError))
    else
      Defer
  }

  /** The validator defers or answers with an error: it never produces a success. */
  lemma NeverSuccess(response: Response, searchContentType: string)
    ensures var r := ValidateContentType(response, searchContentType);
      r.Answer? ==> r.promise.Fulfilled? && r.promise.value.Failure?
  {
  }

  /**
   * A header value holding the searched text anywhere is accepted, e.g. `json`
   * in `application/vnd.myapp.type.v1+json`.
   */
  lemma AcceptsSubstring(response: Response, before: string, searchContentType: string, after: string)
    requires HeaderGet(response.headers, "content-type") == Some(before + searchContentType + after)
    ensures ValidateContentType(response, searchContentType) == Defer
  {
    var v := before + searchContentType + after;
    assert v[|before|..|before| + |searchContentType|] == searchContentType;
    assert OccursAt(v, searchContentType, |before|);
  }

  /** An empty searched text accepts any present header, since `indexOf('')` is 0. */
  lemma EmptySearchAcceptsPresentHeader(response: Response)
    requires HeaderGet(response.headers, "content-type").Some?
    ensures ValidateContentType(response, "") == Defer
  {
    assert OccursAt(HeaderGet(response.headers, "content-type").value, "", 0);
  }
}
