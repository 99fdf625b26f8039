/**
 * `HttpPromise`: unwrapping an outcome promise into a value promise, the
 * "safe" wrappers that coerce unexpected exceptions of then/catch functions
 * into the generic error, and the mutable promise wrapper that records
 * whether a then or a catch function was attached.
 *
 * A promise is modelled by the settlement it reaches (`Settled`); attaching a
 * then or catch function computes the settlement of the chained promise.
 */
module HttpPromises {
  import opened Js
  import opened FetchApi
  import opened HttpResponses

  /**
   * `processHttpResponse(httpResponse)`: an error outcome throws its error
   * object, a success returns its value, except that an `undefined` value
   * throws the generic error.
   */
  function ProcessHttpResponse(httpResponse: HttpResponse<Value>): (r: Completion<Value>)
    ensures httpResponse.Failure? ==> r == Threw(AsThrown(httpResponse.error))
    ensures httpResponse.Success? && httpResponse.response.Undefined? ==> r == Threw(AsThrown(GenericError))
    ensures httpResponse.Success? && !httpResponse.response.Undefined? ==> r == Returned(httpResponse.response)
  {
    match httpResponse
    case Failure(error) => Threw(AsThrown(error))
    case Success(Undefined) => Threw(AsThrown(GenericError))
    case Success(v) => Returned(v)
  }

  /** `unwrapHttpPromise(p)`: `p.then(processHttpResponse)`. */
  function UnwrapHttpPromise(p: Settled<HttpResponse<Value>>): (r: Settled<Value>)
    ensures p.Rejected? ==> r == Rejected(p.reason)
    ensures p.Fulfilled? ==> r == Settle(ProcessHttpResponse(p.value))
  {
    Then(p, (h: HttpResponse<Value>) => Lift(ProcessHttpResponse(h)))
  }

  /**
   * `isHttpError(object)`: the value is a non-null object whose `errorCode`
   * is not `undefined`.
   */
  predicate IsHttpError(t: Thrown)
  {
    t.Object? && t.errorCode.Some?
  }

  /**
   * The `HttpError` view of an HttpError-shaped object, as a catch function
   * receives it: the same object, with nothing dropped or rebuilt.
   */
  function ToHttpError(t: Thrown): (e: HttpError)
    requires IsHttpError(t)
    ensures AsThrown(e) == t
  {
    HttpError(t.errorCode.value, t.statusArguments, t.otherFields)
  }

  /**
   * A thrown `HttpError` object is recognised as one, and a catch function
   * receives exactly that error back.
   */
  lemma HttpErrorRoundTrip(e: HttpError)
    ensures IsHttpError(AsThrown(e)) && ToHttpError(AsThrown(e)) == e
  {
  }

  /** Neither `null`/`undefined`, nor a primitive, nor an `Error` without `errorCode` is an HttpError. */
  lemma NotHttpErrors(text: string, name: string, message: string)
    ensures !IsHttpError(Nullish) && !IsHttpError(Primitive(text))
    ensures !IsHttpError(NewError(name, message))
  {
  }

  /**
   * The rule shared by `safeThen` and `safeCatch` for what the wrapped function
   * does: a return passes through, an HttpError-shaped exception is rethrown
   * unchanged, any other exception becomes the generic error.
   */
  function Coerce<R>(c: Completion<Settled<R>>): (r: Completion<Settled<R>>)
    ensures r.Threw? ==> IsHttpError(r.exception)
    ensures c.Returned? ==> r == c
    ensures c.Threw? && IsHttpError(c.exception) ==> r == c
    ensures c.Threw? && !IsHttpError(c.exception) ==> r == Threw(AsThrown(GenericError))
  {
    match c
    case Returned(_) => c
    case Threw(e) => if IsHttpError(e) then c else Threw(AsThrown(GenericError))
  }

  /** `safeThen(thenFunction)(parameter)`: the then function under the coercion rule. */
  function SafeThen<P, R>(thenFunction: P -> Completion<Settled<R>>, parameter: P): (r: Completion<Settled<R>>)
    ensures r.Threw? ==> IsHttpError(r.exception)
    ensures thenFunction(parameter).Returned? ==> r == thenFunction(parameter)
    ensures thenFunction(parameter).Threw? ==>
      r == Threw(if IsHttpError(thenFunction(parameter).exception) then thenFunction(parameter).exception
                 else AsThrown(GenericError))
  {
    Coerce(thenFunction(parameter))
  }

  /**
   * `safeCatch(catchFunction)(httpError)`: a reason that is not HttpError-shaped
   * becomes the generic error without calling the catch function; otherwise the
   * catch function runs on it under the coercion rule.
   */
  function SafeCatch<R>(catchFunction: HttpError -> Completion<Settled<R>>, httpError: Thrown): (r: Completion<Settled<R>>)
    ensures r.Threw? ==> IsHttpError(r.exception)
    ensures !IsHttpError(httpError) ==> r == Threw(AsThrown(GenericError))
    ensures IsHttpError(httpError) && catchFunction(ToHttpError(httpError)).Returned? ==>
      r == catchFunction(ToHttpError(httpError))
    ensures IsHttpError(httpError) && catchFunction(ToHttpError(httpError)).Threw? ==>
      var e := catchFunction(ToHttpError(httpError)).exception;
      r == Threw(if IsHttpError(e) then e else AsThrown(GenericError))
  {
    if IsHttpError(httpError) then Coerce(catchFunction(ToHttpError(httpError)))
    else Threw(AsThrown(GenericError))
  }

  /** The settlement of `promise.then(safeThen(thenFunction))`. */
  function ThenOutcome<T>(promise: Settled<T>, thenFunction: T -> Completion<Settled<T>>): Settled<T>
  {
    Then(promise, (v: T) => SafeThen(thenFunction, v))
  }

  /** The settlement of `promise.catch(safeCatch(catchFunction))`. */
  function CatchOutcome<T>(promise: Settled<T>, catchFunction: HttpError -> Completion<Settled<T>>): Settled<T>
  {
    Catch(promise, (t: Thrown) => SafeCatch(catchFunction, t))
  }

  /** A rejected promise skips every then function: the rejection passes unchanged. */
  lemma RejectionSkipsThen<T>(reason: Thrown, thenFunction: T -> Completion<Settled<T>>)
    ensures ThenOutcome(Rejected(reason), thenFunction) == Rejected(reason)
  {
  }

  /** A fulfilled promise skips every catch function. */
  lemma FulfilmentSkipsCatch<T>(v: T, catchFunction: HttpError -> Completion<Settled<T>>)
    ensures CatchOutcome(Fulfilled(v), catchFunction) == Fulfilled(v)
  {
  }

  /**
   * A then function that returns normally, or throws an HttpError object, sees its
   * own completion adopted; any other exception rejects with the generic error.
   */
  lemma ThenAdoptsOrCoerces<T>(v: T, thenFunction: T -> Completion<Settled<T>>)
    ensures var c := thenFunction(v);
      ThenOutcome(Fulfilled(v), thenFunction) ==
        (if c.Returned? then c.value
         else if IsHttpError(c.exception) then Rejected(c.exception)
         else Rejected(AsThrown(GenericError)))
  {
  }

  /**
   * A rejection that is not HttpError-shaped never reaches the catch function:
   * the chain rejects with the generic error whatever that function does.
   */
  lemma CatchCoercesForeignRejection<T>(reason: Thrown, catchFunction: HttpError -> Completion<Settled<T>>)
    requires !IsHttpError(reason)
    ensures CatchOutcome(Rejected(reason), catchFunction) == Rejected(AsThrown(GenericError))
  {
  }

  /**
   * Recovery: when a catch function returns a value for an HttpError rejection,
   * a then function attached afterwards runs on that value.
   */
  lemma {:induction false} ThenAfterRecovery<T>(error: HttpError, recovered: T,
      catchFunction: HttpError -> Completion<Settled<T>>, thenFunction: T -> Completion<Settled<T>>)
    requires catchFunction(error) == Returned(Fulfilled(recovered))
    ensures ThenOutcome(CatchOutcome(Rejected(AsThrown(error)), catchFunction), thenFunction)
         == ThenOutcome(Fulfilled(recovered), thenFunction)
  {
    HttpErrorRoundTrip(error);
    assert SafeCatch(catchFunction, AsThrown(error)) == Returned(Fulfilled(recovered));
  }

  /**
   * A mutable promise wrapper. `then` and `catch` replace the wrapped promise by
   * the chained one, set their flag and return the same instance; `toPromise`
   * sets both flags and hands out the current promise.
   */
  class HttpPromise<T, C> {
    var isThenAttached: bool
    var isCaughtAttached: bool
    var promise: Settled<T>
    const debugContext: Option<C>

    constructor(basePromise: Settled<T>, debugContext: Option<C>)
      ensures !isThenAttached && !isCaughtAttached
      ensures promise == basePromise && this.debugContext == debugContext
    {
      isThenAttached := false;
      isCaughtAttached := false;
      promise := basePromise;
      this.debugContext := debugContext;
    }

    method Then(thenFunction: T -> Completion<Settled<T>>) returns (self: HttpPromise<T, C>)
      modifies this
      ensures self == this
      ensures isThenAttached && isCaughtAttached == old(isCaughtAttached)
      ensures promise == ThenOutcome(old(promise), thenFunction)
    {
      isThenAttached := true;
      promise := ThenOutcome(promise, thenFunction);
      self := this;
    }

    method Catch(catchFunction: HttpError -> Completion<Settled<T>>) returns (self: HttpPromise<T, C>)
      modifies this
      ensures self == this
      ensures isCaughtAttached && isThenAttached == old(isThenAttached)
      ensures promise == CatchOutcome(old(promise), catchFunction)
    {
      isCaughtAttached := true;
      promise := CatchOutcome(promise, catchFunction);
      self := this;
    }

    method ToPromise() returns (p: Settled<T>)
      modifies this
      ensures isThenAttached && isCaughtAttached
      ensures p == promise && promise == old(promise)
    {
      isThenAttached := true;
      isCaughtAttached := true;
      p := promise;
    }

    method GetDebugContext() returns (c: Option<C>)
      ensures c == debugContext
    {
      c := debugContext;
    }
  }

  /**
   * The recovery scenario on the class: a rejected HttpPromise, a catch function
   * that recovers, then a then function; the then function sees the recovered
   * value, and both flags end up set.
   */
  method RecoveryScenario<T, C>(error: HttpError, recovered: T,
      catchFunction: HttpError -> Completion<Settled<T>>, thenFunction: T -> Completion<Settled<T>>)
      returns (outcome: Settled<T>)
    requires catchFunction(error) == Returned(Fulfilled(recovered))
    ensures outcome == ThenOutcome(Fulfilled(recovered), thenFunction)
  {
    var p := new HttpPromise<T, C>(Rejected(AsThrown(error)), None);
    var q := p.Catch(catchFunction);
    q := q.Then(thenFunction);
    assert p.isThenAttached && p.isCaughtAttached;
    ThenAfterRecovery(error, recovered, catchFunction, thenFunction);
    outcome := p.ToPromise();
  }
}
