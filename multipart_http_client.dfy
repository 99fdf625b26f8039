/**
 * The multipart client built on `XMLHttpRequest`: the response it builds from
 * a finished request, how each request event settles the upload promise, the
 * request headers it sets, and the fetch client and request factory on top.
 *
 * The request itself is driven by events (`OnEvent`); which event comes, and
 * when, is the caller's choice, standing for the network and the timer.
 */
module MultipartHttpClients {
  import opened Js
  import opened FetchApi
  import opened HttpResponses
  import opened FetchResponseHandlers
  import opened HttpPromises
  import opened FetchClients
  import opened RawHeaderParser
  import opened MultipartHttpRequests

  /** What a finished `XMLHttpRequest` exposes: status, status text, raw header block and body. */
  datatype Xhr = Xhr(status: int, statusText: string, rawHeaders: string, response: Body)

  /**
   * `createResponseFromXhr(xhr)`: a `Response` with the request's status,
   * status text and body, and the headers parsed from the raw header block.
   */
  function CreateResponseFromXhr(xhr: Xhr): (r: Response)
    ensures r.status == xhr.status && r.statusText == xhr.statusText && r.body == xhr.response
    ensures r.headers == ParsedHeaders(xhr.rawHeaders)
  {
    Response(xhr.status, xhr.statusText, ParsedHeaders(xhr.rawHeaders), xhr.response)
  }

  /** The response carries back exactly the well-formed headers the server sent, in order. */
  lemma ResponseHeadersRoundTrip(xhr: Xhr, headers: HeaderList)
    requires forall k :: 0 <= k < |headers| ==> WellFormed(headers[k])
    requires xhr.rawHeaders == RawBlock(headers)
    ensures CreateResponseFromXhr(xhr).headers == headers
  {
    ParseRawBlock(headers);
  }

  /** A single header line, with or without its final CRLF, can be read back by name. */
  lemma SingleHeaderReadBack(xhr: Xhr, name: string, value: string)
    requires WellFormed((name, value))
    requires xhr.rawHeaders == HeaderLine((name, value)) || xhr.rawHeaders == HeaderLine((name, value)) + "\r\n"
    ensures HeaderGet(CreateResponseFromXhr(xhr).headers, name) == Some(value)
  {
    SingleLine((name, value));
    HeaderGetSingle([(name, value)], 0);
  }

  /** An event of an `XMLHttpRequest` upload. */
  datatype XhrEvent =
    | LoadEvent(xhr: Xhr)                     // `load`: the response is in
    | ErrorEvent                              // `error`: the request failed
    | TimeoutEvent                            // `timeout`: the request's own timeout elapsed
    | UploadProgressEvent(progress: ProgressEvent) // `progress` on `xhr.upload`
    | UploadErrorEvent                        // `error` on `xhr.upload`
    | AbortEvent                              // `abort`: `xhr.abort()` was called

  /** `new Error(networkError.errorCode)`. */
  const NetworkFailure: Thrown := NewError("Error", NetworkError.errorCode)

  /** `new Error(timeoutError.errorCode)`. */
  const TimeoutFailure: Thrown := NewError("Error", TimeoutError.errorCode)

  /**
   * How the handlers installed by `multipartHttpFetchClientExecutor` settle the
   * promise, as written: `None` when the event does not settle it. No handler
   * is installed for `abort`, which is the event the timer's `xhr.abort()` fires.
   */
  function EventSettlementAsWritten(e: XhrEvent): (r: Option<Settled<Response>>)
    ensures r.Some? <==> !e.UploadProgressEvent? && !e.AbortEvent?
    ensures e.LoadEvent? ==> r == Some(Fulfilled(CreateResponseFromXhr(e.xhr)))
    ensures e.ErrorEvent? || e.UploadErrorEvent? ==> r == Some(Rejected(NetworkFailure))
    ensures e.TimeoutEvent? ==> r == Some(Rejected(TimeoutFailure))
  {
    match e
    case LoadEvent(xhr) => Some(Fulfilled(CreateResponseFromXhr(xhr)))
    case ErrorEvent => Some(Rejected(NetworkFailure))
    case TimeoutEvent => Some(Rejected(TimeoutFailure))
    case UploadProgressEvent(_) => None
    case UploadErrorEvent => Some(Rejected(NetworkFailure))
    case AbortEvent => None
  }

  /**
   * The discrepancy: when the timer aborts the request the promise is never
   * settled, although aborting is how the executor enforces its timeout.
   */
  lemma TimerAbortNeverSettlesAsWritten()
    ensures EventSettlementAsWritten(AbortEvent).None?
    ensures EventSettlementAsWritten(TimeoutEvent) == Some(Rejected(TimeoutFailure))
  {
  }

  /** The event handling the executor evidently intends: an abort rejects like a timeout. */
  function EventSettlement(e: XhrEvent): (r: Option<Settled<Response>>)
    ensures r.Some? <==> !e.UploadProgressEvent?
    ensures e.AbortEvent? ==> r == Some(Rejected(TimeoutFailure))
    ensures !e.AbortEvent? ==> r == EventSettlementAsWritten(e)
  {
    if e.AbortEvent? then Some(Rejected(TimeoutFailure)) else EventSettlementAsWritten(e)
  }

  /**
   * One upload: the request headers set on the `XMLHttpRequest`, the body sent,
   * the progress reported to the caller's callback, whether the abort timer is
   * still pending, whether the request was aborted, and the settlement of the
   * returned promise once it has one.
   */
  class XhrCall {
    var requestHeaders: map<string, string>
    var withCredentials: bool
    var sentBody: seq<FormEntry>
    const onProgressCallback: ProgressCallback
    var progressReported: seq<ProgressEvent>
    var timerPending: bool
    var aborted: bool
    var outcome: Option<Settled<Response>>

    /** Once the promise has settled, `finally` has cleared the timer; an abort comes from the timer firing. */
    ghost predicate Valid()
      reads this
    {
      && (outcome.Some? ==> !timerPending)
      && (aborted ==> !timerPending)
    }

    /** `xhr.setRequestHeader(name, value)`: a repeated name gets the values combined with ", ". */
    method SetRequestHeader(name: string, value: string)
      modifies this
      ensures requestHeaders == old(requestHeaders)[name :=
        if name in old(requestHeaders) then old(requestHeaders)[name] + ", " + value else value]
      ensures unchanged(this`withCredentials, this`sentBody, this`progressReported, this`timerPending, this`aborted, this`outcome)
    {
      if name in requestHeaders {
        requestHeaders := requestHeaders[name := requestHeaders[name] + ", " + value];
      } else {
        requestHeaders := requestHeaders[name := value];
      }
    }

    /**
     * The executor up to `send`: the timer is started, credentials are set,
     * every entry of `headersValue` is set as a request header, and the form
     * data is sent.
     */
    constructor(request: MultipartRequest)
      ensures Valid()
      ensures requestHeaders == request.headersValue
      ensures withCredentials == request.optionValues.withCredentials
      ensures sentBody == request.formData
      ensures onProgressCallback == request.optionValues.onProgressCallback
      ensures progressReported == [] && timerPending && !aborted && outcome.None?
    {
      onProgressCallback := request.optionValues.onProgressCallback;
      timerPending := true;
      aborted := false;
      withCredentials := request.optionValues.withCredentials;
      requestHeaders := map[];
      sentBody := [];
      progressReported := [];
      outcome := None;
      new;
      var headers := request.headersValue;
      var remaining := headers.Keys;
      while remaining != {}
        invariant remaining <= headers.Keys
        invariant requestHeaders == map k | k in headers && k !in remaining :: headers[k]
        invariant withCredentials == request.optionValues.withCredentials
        invariant onProgressCallback == request.optionValues.onProgressCallback
        invariant sentBody == [] && progressReported == [] && timerPending && !aborted && outcome.None?
        decreases remaining
      {
        var name :| name in remaining;
        SetRequestHeader(name, headers[name]);
        remaining := remaining - {name};
      }
      sentBody := request.formData;
    }

    /**
     * An event of the request, handled as the executor installs its handlers.
     * Upload progress goes to the caller's callback; the first settling event
     * settles the promise and clears the timer; a promise that has settled
     * stays as it is. An aborted request delivers no further events.
     */
    method OnEvent(e: XhrEvent)
      requires Valid()
      modifies this
      ensures Valid()
      ensures old(aborted) ==> unchanged(this)
      ensures !old(aborted) && e.UploadProgressEvent? && onProgressCallback.CallerCallback? ==>
        progressReported == old(progressReported) + [e.progress]
      ensures old(aborted) || !(e.UploadProgressEvent? && onProgressCallback.CallerCallback?) ==>
        progressReported == old(progressReported)
      ensures old(outcome).Some? ==> outcome == old(outcome) && timerPending == old(timerPending)
      ensures !old(aborted) && old(outcome).None? ==>
        outcome == EventSettlementAsWritten(e) && timerPending == (old(timerPending) && outcome.None?)
      ensures unchanged(this`requestHeaders, this`withCredentials, this`sentBody, this`aborted)
    {
      if !aborted {
        if e.UploadProgressEvent? && onProgressCallback.CallerCallback? {
          progressReported := progressReported + [e.progress];
        }
        SettleOnce(EventSettlementAsWritten(e));
      }
    }

    /** The settling part of an event: only the first settling event counts; settling clears the timer. */
    method SettleOnce(settlement: Option<Settled<Response>>)
      requires Valid()
      modifies this
      ensures Valid()
      ensures old(outcome).Some? ==> outcome == old(outcome) && timerPending == old(timerPending)
      ensures old(outcome).None? ==> outcome == settlement && timerPending == (old(timerPending) && settlement.None?)
      ensures unchanged(this`requestHeaders, this`withCredentials, this`sentBody, this`progressReported, this`aborted)
    {
      if outcome.None? {
        outcome := settlement;
        if settlement.Some? {
          timerPending := false;
        }
      }
    }

    /**
     * The timer elapses: a timer still pending calls `xhr.abort()`, which fires
     * `abort`, for which no handler is installed. The request is aborted and the
     * promise is left as it was.
     */
    method TimerElapses()
      requires Valid()
      modifies this
      ensures Valid()
      ensures old(timerPending) ==> aborted && !timerPending && outcome == old(outcome)
      ensures !old(timerPending) ==> unchanged(this)
      ensures unchanged(this`requestHeaders, this`withCredentials, this`sentBody, this`progressReported)
    {
      if timerPending {
        timerPending := false;
        OnEvent(AbortEvent);
        aborted := true;
      }
    }
  }

  /**
   * An upload whose response arrives before the timer: the promise fulfils
   * with the response, and the elapsed timer changes nothing.
   */
  method LoadBeforeTimer(request: MultipartRequest, xhr: Xhr) returns (outcome: Option<Settled<Response>>)
    ensures outcome == Some(Fulfilled(CreateResponseFromXhr(xhr)))
  {
    var call := new XhrCall(request);
    call.OnEvent(LoadEvent(xhr));
    call.TimerElapses();
    outcome := call.outcome;
  }

  /**
   * An upload with no response before the timer: the timer aborts the request
   * and the promise never settles, however many progress events came before,
   * since the aborted request delivers no load afterwards.
   */
  method TimerBeforeLoad(request: MultipartRequest, progress: seq<ProgressEvent>, xhr: Xhr)
      returns (outcome: Option<Settled<Response>>, reported: seq<ProgressEvent>)
    ensures outcome.None?
    ensures request.optionValues.onProgressCallback.CallerCallback? ==> reported == progress
    ensures request.optionValues.onProgressCallback.NoOpCallback? ==> reported == []
  {
    var call := new XhrCall(request);
    var i := 0;
    while i < |progress|
      invariant 0 <= i <= |progress|
      invariant call.Valid() && call.outcome.None? && call.timerPending && !call.aborted
      invariant call.onProgressCallback == request.optionValues.onProgressCallback
      invariant call.progressReported == if call.onProgressCallback.CallerCallback? then progress[..i] else []
    {
      call.OnEvent(UploadProgressEvent(progress[i]));
      assert progress[..i + 1] == progress[..i] + [progress[i]];
      i := i + 1;
    }
    assert progress[..i] == progress;
    call.TimerElapses();
    call.OnEvent(LoadEvent(xhr));
    outcome := call.outcome;
    reported := call.progressReported;
  }

  /**
   * `multipartHttpFetchClient(httpRequest, ...handlers)`, given the settlement of
   * the upload: the same chain as `fetchClient`, a received response through the
   * handlers and a rejection through `networkErrorCatcher`.
   */
  function MultipartHttpFetchClient(upload: Settled<Response>, handlers: seq<Handler>): (r: Settled<HttpResponse<Value>>)
    ensures upload.Rejected? ==> r == Settle(NetworkErrorCatcher(upload.reason))
    ensures upload.Fulfilled? ==>
      var handled := ProcessHandlers(upload.value, handlers).outcome;
      r == if handled.Fulfilled? then handled else Settle(NetworkErrorCatcher(handled.reason))
  {
    FetchClient(upload, handlers)
  }

  /**
   * The rejections of the executor are plain `Error`s, never named
   * `AbortError`, so every failed upload, the timeout included, gives the
   * network error outcome; so would the timeout rejection of the corrected
   * abort handling.
   */
  lemma UploadFailuresAreNetworkErrors(e: XhrEvent, handlers: seq<Handler>)
    requires EventSettlementAsWritten(e).Some? && EventSettlementAsWritten(e).value.Rejected?
    ensures MultipartHttpFetchClient(EventSettlementAsWritten(e).value, handlers) == Fulfilled(Failure(NetworkError))
    ensures MultipartHttpFetchClient(EventSettlement(AbortEvent).value, handlers) == Fulfilled(Failure(NetworkError))
  {
  }

  /** A loaded upload goes through the handlers with the response built from the request. */
  lemma LoadedUploadIsHandled(xhr: Xhr)
    ensures MultipartHttpFetchClient(EventSettlementAsWritten(LoadEvent(xhr)).value, [])
         == Fulfilled(Success(Raw(CreateResponseFromXhr(xhr))))
  {
  }

  /** The client `createMultipartHttpFetchRequest` installs: the unwrapped outcome, and the request as debug context. */
  function HttpPromiseClient(multipartHttpClient: MultipartRequest -> Settled<HttpResponse<Value>>)
    : MultipartRequest -> (Settled<Value>, MultipartRequest)
  {
    (request: MultipartRequest) => (UnwrapHttpPromise(multipartHttpClient(request)), request)
  }

  /** `createMultipartHttpFetchRequest(baseUrl, method, path, multipartHttpClient, options)`. */
  method CreateMultipartHttpFetchRequest(baseUrl: string, httpMethod: string, path: string,
      multipartHttpClient: MultipartRequest -> Settled<HttpResponse<Value>>, options: Option<PartialOptions>)
      returns (r: MultipartHttpRequest<(Settled<Value>, MultipartRequest)>)
    ensures fresh(r)
    ensures r.multipartHttpClient == HttpPromiseClient(multipartHttpClient)
    ensures r.baseUrl == baseUrl && r.httpMethod == httpMethod && r.path == path
    ensures r.headersValue == map[] && r.formData == [] && r.optionValues == OptionValues(options)
  {
    r := new MultipartHttpRequest(HttpPromiseClient(multipartHttpClient), baseUrl, httpMethod, path, options);
  }

  /**
   * `execute()` on such a request: a new `HttpPromise` of the unwrapped client
   * outcome, whose debug context is the request.
   */
  method ExecuteMultipartHttpFetchRequest(request: MultipartHttpRequest<(Settled<Value>, MultipartRequest)>,
      multipartHttpClient: MultipartRequest -> Settled<HttpResponse<Value>>)
      returns (p: HttpPromise<Value, MultipartRequest>)
    requires request.multipartHttpClient == HttpPromiseClient(multipartHttpClient)
    ensures fresh(p)
    ensures p.promise == UnwrapHttpPromise(multipartHttpClient(request.Content()))
    ensures p.debugContext == Some(request.Content())
    ensures !p.isThenAttached && !p.isCaughtAttached
  {
    var result := request.Execute();
    p := new HttpPromise(result.0, Some(result.1));
  }
}
