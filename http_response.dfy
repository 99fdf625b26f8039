/**
 * The outcome of an HTTP call: a success carrying a value, or an error
 * carrying an `HttpError`; and the catalogue of the library's error codes.
 */
module HttpResponses {
  import opened Js

  /**
   * An error identified by a code, with optional arguments for display: an
   * object whose `errorCode` is set, with its `statusArguments` and any other
   * properties it carries (a server's error body keeps all of its members).
   */
  datatype HttpError = HttpError(errorCode: string, statusArguments: Option<seq<string>>,
                                 otherFields: map<string, string>)

  /** Exactly one of `{response}` and `{error}`. */
  datatype HttpResponse<+T> = Success(response: T) | Failure(error: HttpError)

  const GenericError: HttpError := HttpError("INTERNAL_ERROR", None, map[])
  const NetworkError: HttpError := HttpError("NETWORK_ERROR", None, map[])
  const TimeoutError: HttpError := HttpError("TIMEOUT_ERROR", None, map[])
  const ForbiddenError: HttpError := HttpError("FORBIDDEN_ERROR", None, map[])

  /** The four error codes of the catalogue are pairwise distinct. */
  lemma CatalogueDistinct()
    ensures GenericError.errorCode != NetworkError.errorCode
    ensures GenericError.errorCode != TimeoutError.errorCode
    ensures GenericError.errorCode != ForbiddenError.errorCode
    ensures NetworkError.errorCode != TimeoutError.errorCode
    ensures NetworkError.errorCode != ForbiddenError.errorCode
    ensures TimeoutError.errorCode != ForbiddenError.errorCode
  {
  }

  /** `toErrorResponsePromise(error)`: a promise already fulfilled with the error outcome. */
  function ToErrorResponsePromise<T>(error: HttpError): (p: Settled<HttpResponse<T>>)
    ensures p.Fulfilled? && p.value.Failure? && p.value.error == error
  {
    Fulfilled(Failure(error))
  }

  /** The object `error` itself, when it is thrown or becomes a rejection reason. */
  function AsThrown(error: HttpError): (t: Thrown)
    ensures t.Object? && t.errorCode == Some(error.errorCode) && t.statusArguments == error.statusArguments
    ensures t.otherFields == error.otherFields
  {
    Object(Some(error.errorCode), error.statusArguments, error.otherFields)
  }
}
