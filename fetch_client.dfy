/**
 * `fetchClient`: a transport promise of a `Response` followed by the handler
 * pipeline, with transport failures classified; and the client that
 * `createHttpFetchRequest` installs on the requests it builds.
 */
module FetchClients {
  import opened Js
  import opened FetchApi
  import opened HttpResponses
  import opened FetchResponseHandlers
  import opened HttpPromises

  /**
   * `fetchClient(httpRequest, ...handlers)`, given the settlement of the
   * transport: `transport.then(response => processHandlers(response, handlers))
   * .catch(networkErrorCatcher)`. The catch sits after the handler step, so a
   * handler promise that rejects is classified like a transport failure.
   */
  function FetchClient(transport: Settled<Response>, handlers: seq<Handler>): (r: Settled<HttpResponse<Value>>)
    ensures transport.Rejected? ==> r == Settle(NetworkErrorCatcher(transport.reason))
    ensures transport.Fulfilled? ==>
      var handled := ProcessHandlers(transport.value, handlers).outcome;
      r == if handled.Fulfilled? then handled else Settle(NetworkErrorCatcher(handled.reason))
  {
    Catch(
      Then(transport, (response: Response) => Returned(ProcessHandlers(response, handlers).outcome)),
      (error: Thrown) => Lift(NetworkErrorCatcher(error)))
  }

  /** The client only rejects when the rejection it classifies is `null` or `undefined`. */
  lemma RejectsOnlyOnNullish(transport: Settled<Response>, handlers: seq<Handler>)
    ensures FetchClient(transport, handlers).Rejected? ==> FetchClient(transport, handlers).reason == PropertyOfNullish
  {
  }

  /** With no handlers, a received response is the success value itself. */
  lemma NoHandlers(response: Response)
    ensures FetchClient(Fulfilled(response), []) == Fulfilled(Success(Raw(response)))
  {
  }

  /** A transport rejection named `AbortError` (the request timer fired) gives the timeout error. */
  lemma AbortIsTimeout(message: string, handlers: seq<Handler>)
    ensures FetchClient(Rejected(NewError("AbortError", message)), handlers)
         == Fulfilled(Failure(TimeoutError))
  {
  }

  /** Any other transport rejection that is not `null`/`undefined` gives the network error. */
  lemma OtherRejectionIsNetwork(reason: Thrown, handlers: seq<Handler>)
    requires !reason.Nullish? && !HasName(reason, "AbortError")
    ensures FetchClient(Rejected(reason), handlers) == Fulfilled(Failure(NetworkError))
  {
  }

  /**
   * A handler that throws gives the generic error outcome, which unwrapping
   * turns into a rejection with the generic error.
   */
  lemma ThrowingHandler(response: Response, handlers: seq<Handler>, k: nat)
    requires k < |handlers| && DefersBefore(response, handlers, k)
    requires handlers[k](response).Throw?
    ensures FetchClient(Fulfilled(response), handlers) == Fulfilled(Failure(GenericError))
    ensures UnwrapHttpPromise(FetchClient(Fulfilled(response), handlers)) == Rejected(AsThrown(GenericError))
  {
    FirstDecidingHandler(response, handlers, k);
  }

  /** A handler whose promise rejects has its rejection classified by `networkErrorCatcher`. */
  lemma RejectingHandler(response: Response, handlers: seq<Handler>, k: nat, reason: Thrown)
    requires k < |handlers| && DefersBefore(response, handlers, k)
    requires handlers[k](response) == Answer(Rejected(reason))
    ensures FetchClient(Fulfilled(response), handlers) == Settle(NetworkErrorCatcher(reason))
  {
    FirstDecidingHandler(response, handlers, k);
  }

  /**
   * What `execute()` returns on a request built by `createHttpFetchRequest`:
   * a new `HttpPromise` of the unwrapped client outcome, whose debug context
   * is the request.
   */
  method ExecuteHttpFetchRequest<Req>(httpClient: Req -> Settled<HttpResponse<Value>>, httpRequest: Req)
      returns (p: HttpPromise<Value, Req>)
    ensures fresh(p)
    ensures p.promise == UnwrapHttpPromise(httpClient(httpRequest)) && p.debugContext == Some(httpRequest)
    ensures !p.isThenAttached && !p.isCaughtAttached
  {
    p := new HttpPromise(UnwrapHttpPromise(httpClient(httpRequest)), Some(httpRequest));
  }
}
