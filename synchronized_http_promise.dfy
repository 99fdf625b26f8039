/**
 * `SynchronizedHttpPromise`: a single-flight loader. While a load is pending,
 * further loads share it instead of calling the loader again; when the
 * pending promise settles, its clearing callback resets the record so that
 * the next load calls the loader afresh. As written, that callback runs only
 * when the loader's promise fulfils or rejects with an HttpError-shaped
 * object; any other rejection leaves the record in place for good.
 *
 * Settlement is an explicit event (`SettleLoading`): the promise recorded by
 * `Load` carries the settlement it will reach, and the event is the moment it
 * reaches it and the clearing callback runs, if it does.
 */
module SynchronizedHttpPromises {
  import opened Js
  import opened HttpResponses
  import opened HttpPromises

  /** How the recorded promise settles, and whether the clearing callback ran on the way. */
  datatype Settlement<T> = Settlement(cleared: bool, outcome: Settled<T>)

  /** A rejection that `safeCatch` does not let through to the clearing callback. */
  predicate ForeignRejection<T>(loaded: Settled<T>)
  {
    loaded.Rejected? && !IsHttpError(loaded.reason)
  }

  /** The then callback of `load`, after its `clearLoading()`: `return data`. */
  function ClearThenReturn<T>(data: T): Completion<Settled<T>>
  {
    Returned(Fulfilled(data))
  }

  /** The catch callback of `load`, after its `clearLoading()`: `throw error`. */
  function ClearThenRethrow<T>(error: HttpError): Completion<Settled<T>>
  {
    Threw(AsThrown(error))
  }

  /**
   * The chain `load` builds on the loader's promise, as the source writes it:
   * `.then(data => { clearLoading(); return data })` and
   * `.catch(error => { clearLoading(); throw error })`, both attached through
   * `HttpPromise`, hence wrapped by `safeThen` and `safeCatch`. The then
   * callback runs on a fulfilment; the catch callback runs only on a rejection
   * that `safeCatch` lets through, an HttpError-shaped one, and rethrows that
   * very object.
   */
  function ClearingChainAsWritten<T>(loaded: Settled<T>): (s: Settlement<T>)
    ensures !ForeignRejection(loaded) ==> s == Settlement(true, loaded)
    ensures ForeignRejection(loaded) ==> s == Settlement(false, Rejected(AsThrown(GenericError)))
  {
    var afterThen := ThenOutcome(loaded, ClearThenReturn);
    var outcome := CatchOutcome(afterThen, ClearThenRethrow);
    var cleared := loaded.Fulfilled? || (afterThen.Rejected? && IsHttpError(afterThen.reason));
    Settlement(cleared, outcome)
  }

  /**
   * The discrepancy: a loader promise rejected with a plain `Error` never runs
   * the clearing callback, so the record is never cleared and every later
   * `load` returns the same dead promise without calling the loader; the
   * error itself is replaced by the generic error.
   */
  lemma ForeignRejectionNeverClears()
    ensures ClearingChainAsWritten<int>(Rejected(NewError("Error", "boom")))
         == Settlement(false, Rejected(AsThrown(GenericError)))
  {
    NotHttpErrors("", "Error", "boom");
  }

  /**
   * The intended chain: clearing on every settlement, with the value or the
   * error passed through unchanged (attached with the raw promise's `then`
   * and `catch`, or `finally`).
   */
  function ClearingChain<T>(loaded: Settled<T>): (s: Settlement<T>)
    ensures s.cleared && s.outcome == loaded
  {
    var afterThen := Then(loaded, (data: T) => Returned(Fulfilled(data)));
    Settlement(true, Catch(afterThen, (error: Thrown) => Threw(error)))
  }

  /** The two chains differ exactly on foreign rejections. */
  lemma ChainsDifferOnForeignRejections<T>(loaded: Settled<T>)
    ensures ClearingChainAsWritten(loaded) == ClearingChain(loaded) <==> !ForeignRejection(loaded)
  {
  }

  class SynchronizedHttpPromise<T, C> {
    /** The recorded promise, as the settlement it will reach; `None` when nothing is recorded. */
    var loadingPromise: Option<Settled<T>>
    var loadingContext: Option<C>
    /** Whether the chain's clearing callback runs when the recorded promise settles. */
    var clearsOnSettle: bool
    /** How many times the loader has been called. */
    ghost var loaderCalls: nat

    /** The context and the clearing callback only go along with a recorded promise. */
    ghost predicate Valid()
      reads this
    {
      loadingPromise.None? ==> loadingContext.None? && !clearsOnSettle
    }

    constructor()
      ensures Valid() && loadingPromise.None? && loaderCalls == 0
    {
      loadingPromise := None;
      loadingContext := None;
      clearsOnSettle := false;
      loaderCalls := 0;
    }

    /**
     * `load()`. `loaded` is the `HttpPromise` the loader returns when `load`
     * calls it: with nothing recorded, the loader is called once, the clearing
     * then and catch functions are attached to that `HttpPromise` (replacing its
     * promise by the chain), and the chained promise is recorded with its debug
     * context; with a promise recorded, the loader is not called. Either way the
     * result is a new `HttpPromise` of the recorded promise.
     */
    method Load(loaded: HttpPromise<T, C>) returns (p: HttpPromise<T, C>)
      requires Valid()
      modifies this, loaded
      ensures Valid() && fresh(p)
      ensures old(loadingPromise).Some? ==>
        && loadingPromise == old(loadingPromise) && loadingContext == old(loadingContext)
        && clearsOnSettle == old(clearsOnSettle) && loaderCalls == old(loaderCalls) && unchanged(loaded)
      ensures old(loadingPromise).None? ==>
        && loaderCalls == old(loaderCalls) + 1
        && loadingPromise == Some(ClearingChainAsWritten(old(loaded.promise)).outcome)
        && clearsOnSettle == ClearingChainAsWritten(old(loaded.promise)).cleared
        && loadingContext == loaded.debugContext
        && loaded.promise == ClearingChainAsWritten(old(loaded.promise)).outcome
        && loaded.isThenAttached && loaded.isCaughtAttached
      ensures loadingPromise.Some?
      ensures p.promise == loadingPromise.value && p.debugContext == loadingContext
      ensures !p.isThenAttached && !p.isCaughtAttached
    {
      if loadingPromise.None? {
        loaderCalls := loaderCalls + 1;
        var cleared := ClearingChainAsWritten(loaded.promise).cleared;
        var httpPromise := loaded.Then(ClearThenReturn);
        httpPromise := httpPromise.Catch(ClearThenRethrow);
        var chained := httpPromise.ToPromise();
        var context := httpPromise.GetDebugContext();
        loadingPromise := Some(chained);
        clearsOnSettle := cleared;
        loadingContext := context;
      }
      p := new HttpPromise(loadingPromise.value, loadingContext);
    }

    /**
     * The recorded promise settles with the settlement it carries. When the
     * clearing callback runs, both fields are reset; otherwise the settled
     * promise stays recorded, and settling it again changes nothing.
     */
    method SettleLoading() returns (outcome: Settled<T>)
      requires Valid() && loadingPromise.Some?
      modifies this
      ensures Valid() && outcome == old(loadingPromise.value) && loaderCalls == old(loaderCalls)
      ensures old(clearsOnSettle) ==> loadingPromise.None? && loadingContext.None?
      ensures !old(clearsOnSettle) ==>
        loadingPromise == old(loadingPromise) && loadingContext == old(loadingContext) && clearsOnSettle == old(clearsOnSettle)
    {
      outcome := loadingPromise.value;
      if clearsOnSettle {
        ClearLoading();
      }
    }

    /** `clearLoading()`. */
    method ClearLoading()
      modifies this
      ensures loadingPromise.None? && loadingContext.None? && !clearsOnSettle && loaderCalls == old(loaderCalls)
    {
      loadingPromise := None;
      loadingContext := None;
      clearsOnSettle := false;
    }
  }

  /**
   * Two loads before settlement share one loader call and one promise. After
   * settlement, a third load calls the loader again, unless the first
   * loader's promise rejected with something that is not an HttpError: then
   * the third load is not given a loader call and gets the same dead promise,
   * rejected with the generic error.
   */
  method SingleFlight<T, C>(first: HttpPromise<T, C>, second: HttpPromise<T, C>, third: HttpPromise<T, C>)
      returns (p1: HttpPromise<T, C>, p2: HttpPromise<T, C>, settled: Settled<T>, p3: HttpPromise<T, C>)
    requires second != first && second != third
    modifies first, second, third
    ensures p1 != p2 && p1.promise == p2.promise == settled
    ensures unchanged(second)
    ensures !ForeignRejection(old(first.promise)) ==>
      settled == old(first.promise) && p3.promise == ClearingChainAsWritten(old(third.promise)).outcome
    ensures ForeignRejection(old(first.promise)) ==>
      settled == Rejected(AsThrown(GenericError)) && p3.promise == settled && p3 != p1
    ensures ForeignRejection(old(first.promise)) && third != first ==> unchanged(third)
  {
    var s := new SynchronizedHttpPromise<T, C>();
    p1 := s.Load(first);
    p2 := s.Load(second);
    settled := s.SettleLoading();
    p3 := s.Load(third);
  }
}
