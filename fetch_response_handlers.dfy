/**
 * The handler pipeline run on a received response: handlers are tried in
 * order until one answers; and the classification of transport failures.
 */
module FetchResponseHandlers {
  import opened Js
  import opened FetchApi
  import opened HttpResponses

  /** What calling a handler on a response does. */
  datatype HandlerResult =
    | Defer                                         // returns `undefined`: later handlers decide
    | Answer(promise: Settled<HttpResponse<Value>>) // returns a promise of an outcome
    | Throw(exception: Thrown)                      // throws synchronously

  type Handler = Response -> HandlerResult

  /** The promise `processHandlers` returns, and how many handlers it called (a prefix of the list). */
  datatype Run = Run(outcome: Settled<HttpResponse<Value>>, invoked: nat)

  /**
   * `processHandlers(response, handlers)`: the first handler that does not
   * defer decides; a throwing handler gives the generic error; when every
   * handler defers the outcome is the raw response. A promise is always
   * returned, never `undefined`.
   */
  function ProcessHandlers(response: Response, handlers: seq<Handler>): (r: Run)
    ensures r.invoked <= |handlers|
    ensures r.invoked == 0 <==> handlers == []
  {
    if handlers == [] then Run(Fulfilled(Success(Raw(response))), 0)
    else
      match handlers[0](response)
      case Answer(p) => Run(p, 1)
      case Throw(_) => Run(ToErrorResponsePromise(GenericError), 1)
      case Defer =>
        var rest := ProcessHandlers(response, handlers[1..]);
        Run(rest.outcome, rest.invoked + 1)
  }

  /** Every handler before index `k` defers on `response`. */
  ghost predicate DefersBefore(response: Response, handlers: seq<Handler>, k: nat)
    requires k <= |handlers|
  {
    forall i :: 0 <= i < k ==> handlers[i](response).Defer?
  }

  /** What the first handler that does not defer makes of the response. */
  function Decision(h: HandlerResult): Settled<HttpResponse<Value>>
    requires !h.Defer?
  {
    if h.Answer? then h.promise else ToErrorResponsePromise(GenericError)
  }

  /**
   * The handler at index `k` is the first one that does not defer: its result is
   * returned unchanged (a throw becomes the generic error), and the handlers
   * after it are never called.
   */
  lemma {:induction false} FirstDecidingHandler(response: Response, handlers: seq<Handler>, k: nat)
    requires k < |handlers| && DefersBefore(response, handlers, k)
    requires !handlers[k](response).Defer?
    ensures ProcessHandlers(response, handlers).outcome == Decision(handlers[k](response))
    ensures ProcessHandlers(response, handlers).invoked == k + 1
    decreases k
  {
    if k > 0 {
      assert handlers[0](response).Defer?;
      assert DefersBefore(response, handlers[1..], k - 1) by {
        forall i | 0 <= i < k - 1 ensures handlers[1..][i](response).Defer? {
          assert handlers[1..][i] == handlers[i + 1];
        }
      }
      assert handlers[1..][k - 1] == handlers[k];
      FirstDecidingHandler(response, handlers[1..], k - 1);
    }
  }

  /** When every handler defers, all of them are called and the outcome is the raw response. */
  lemma {:induction false} AllHandlersDefer(response: Response, handlers: seq<Handler>)
    requires DefersBefore(response, handlers, |handlers|)
    ensures ProcessHandlers(response, handlers).outcome == Fulfilled(Success(Raw(response)))
    ensures ProcessHandlers(response, handlers).invoked == |handlers|
    decreases |handlers|
  {
    if handlers != [] {
      assert handlers[0](response).Defer?;
      assert DefersBefore(response, handlers[1..], |handlers| - 1) by {
        forall i | 0 <= i < |handlers| - 1 ensures handlers[1..][i](response).Defer? {
          assert handlers[1..][i] == handlers[i + 1];
        }
      }
      AllHandlersDefer(response, handlers[1..]);
    }
  }

  /**
   * Once some handler decides, whatever handlers follow the list are never
   * called and change nothing.
   */
  lemma {:induction false} LaterHandlersNeverRun(response: Response, handlers: seq<Handler>, more: seq<Handler>)
    requires !DefersBefore(response, handlers, |handlers|)
    ensures ProcessHandlers(response, handlers + more) == ProcessHandlers(response, handlers)
    decreases |handlers|
  {
    assert (handlers + more)[0] == handlers[0];
    if handlers[0](response).Defer? {
      assert (handlers + more)[1..] == handlers[1..] + more;
      assert !DefersBefore(response, handlers[1..], |handlers| - 1) by {
        var i :| 0 <= i < |handlers| && !handlers[i](response).Defer?;
        assert handlers[1..][i - 1] == handlers[i];
      }
      LaterHandlersNeverRun(response, handlers[1..], more);
    }
  }

  /**
   * `networkErrorCatcher(error)`: an error named `AbortError` gives the timeout
   * error, anything else the network error; reading `name` of `null` or
   * `undefined` throws a TypeError.
   */
  function NetworkErrorCatcher<T>(error: Thrown): (r: Completion<HttpResponse<T>>)
    ensures r.Threw? <==> error.Nullish?
    ensures r.Returned? ==> r.value.Failure?
    ensures r == Returned(Failure(TimeoutError)) <==> HasName(error, "AbortError")
    ensures r == Returned(Failure(NetworkError)) <==> !error.Nullish? && !HasName(error, "AbortError")
  {
    match error
    case Nullish => Threw(PropertyOfNullish)
    case Primitive(_) => Returned(Failure(NetworkError))
    case Object(_, _, _) =>
      if HasName(error, "AbortError") then Returned(Failure(TimeoutError)) else Returned(Failure(NetworkError))
  }
}
