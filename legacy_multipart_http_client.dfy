/**
 * The older multipart client of `src/lib/client`: the executor streams the
 * form as a `multipart/form-data` body (section 5.1 of RFC 2046) through
 * `fetch`, a timer is meant to cancel the upload, and the client runs the
 * response handlers in a loop of its own.
 */
module LegacyMultipartHttpClients {
  import opened Js
  import opened FetchApi
  import opened HttpResponses
  import opened FetchResponseHandlers
  import opened HttpPromises
  import opened FetchClients
  import opened MultipartHttpRequests
  import opened LegacyMultipartHttpRequests

  // ---------------------------------------------------------------------------
  // The streamed body

  /** A chunk the stream enqueues: an encoded string, or bytes read from a blob. */
  datatype Chunk = Encoded(text: string) | Binary(bytes: seq<byte>)

  /** The line that opens each part. */
  function Delimiter(boundary: string): (s: string)
    ensures |s| == |boundary| + 4 && s[0] == '-'
  {
    "--" + boundary + "\r\n"
  }

  /** The line that ends the body. */
  function CloseDelimiter(boundary: string): (s: string)
    ensures |s| == |boundary| + 6 && s[0] == '-'
  {
    "--" + boundary + "--\r\n"
  }

  /** `data.type || 'application/octet-stream'`: an empty media type falls back. */
  function BlobContentType(blob: Blob): (t: string)
    ensures t != ""
    ensures blob.mediaType != "" ==> t == blob.mediaType
  {
    if blob.mediaType == "" then "application/octet-stream" else blob.mediaType
  }

  /**
   * The header lines of a part: its disposition, with the entry name also as
   * file name for a blob, followed for a blob by its content type.
   */
  function PartHeader(entry: FormEntry): (s: string)
    ensures |s| > 0 && s[0] == 'C'
  {
    match entry.value
    case FormText(_) => "Content-Disposition: form-data; name=\"" + (entry.name + "\"\r\n\r\n")
    case FormBlob(blob) =>
      "Content-Disposition: form-data; name=\"" + (entry.name + "\"; filename=\"" + entry.name + "\"\r\n"
      + "Content-Type: " + BlobContentType(blob) + "\r\n\r\n")
  }

  /** The content of a part and the line break that ends it; an empty blob gives no byte chunk. */
  function PartContent(value: FormDataValue): seq<Chunk>
  {
    match value
    case FormText(text) => [Encoded(text + "\r\n")]
    case FormBlob(blob) => (if blob.bytes == [] then [] else [Binary(blob.bytes)]) + [Encoded("\r\n")]
  }

  /** The chunks of one part. */
  function PartChunks(boundary: string, entry: FormEntry): seq<Chunk>
  {
    [Encoded(Delimiter(boundary)), Encoded(PartHeader(entry))] + PartContent(entry.value)
  }

  /** The chunks `part` gives for each of `entries`, one after the other. */
  function ConcatParts(part: FormEntry -> seq<Chunk>, entries: seq<FormEntry>): seq<Chunk>
  {
    if entries == [] then []
    else ConcatParts(part, entries[..|entries| - 1]) + part(entries[|entries| - 1])
  }

  /** Concatenating the parts of two lists of entries is concatenating their chunks. */
  lemma {:induction false} ConcatPartsAppend(part: FormEntry -> seq<Chunk>, a: seq<FormEntry>, b: seq<FormEntry>)
    ensures ConcatParts(part, a + b) == ConcatParts(part, a) + ConcatParts(part, b)
    decreases |b|
  {
    if b == [] {
      assert a + b == a;
    } else {
      assert (a + b)[..|a + b| - 1] == a + b[..|b| - 1];
      assert (a + b)[|a + b| - 1] == b[|b| - 1];
      ConcatPartsAppend(part, a, b[..|b| - 1]);
    }
  }

  /** The chunks of the parts of `entries`, in order. */
  function Parts(boundary: string, entries: seq<FormEntry>): seq<Chunk>
  {
    ConcatParts((entry: FormEntry) => PartChunks(boundary, entry), entries)
  }

  /** The chunks of the last entry follow those of the entries before it. */
  lemma PartsSnoc(boundary: string, entries: seq<FormEntry>, entry: FormEntry)
    ensures Parts(boundary, entries + [entry]) == Parts(boundary, entries) + PartChunks(boundary, entry)
  {
    assert (entries + [entry])[..|entries|] == entries;
  }

  /** The parts of the first `i + 1` entries: those of the first `i`, then the part of entry `i`. */
  lemma PartsPrefix(boundary: string, entries: seq<FormEntry>, i: nat)
    requires i < |entries|
    ensures Parts(boundary, entries[..i + 1]) == Parts(boundary, entries[..i]) + PartChunks(boundary, entries[i])
  {
    assert entries[..i + 1] == entries[..i] + [entries[i]];
    PartsSnoc(boundary, entries[..i], entries[i]);
  }

  /** The whole body: every part, then the close delimiter. */
  function Framing(boundary: string, entries: seq<FormEntry>): seq<Chunk>
  {
    Parts(boundary, entries) + [Encoded(CloseDelimiter(boundary))]
  }

  /**
   * Framing is compositional: the body of two lists of entries is the parts
   * of the first followed by the body of the second.
   */
  lemma PartsAppend(boundary: string, a: seq<FormEntry>, b: seq<FormEntry>)
    ensures Parts(boundary, a + b) == Parts(boundary, a) + Parts(boundary, b)
    ensures Framing(boundary, a + b) == Parts(boundary, a) + Framing(boundary, b)
  {
    ConcatPartsAppend((entry: FormEntry) => PartChunks(boundary, entry), a, b);
  }

  /** No text value would be mistaken for a delimiter line of `boundary`. */
  predicate NoDelimiterValues(boundary: string, entries: seq<FormEntry>)
  {
    forall k :: 0 <= k < |entries| && entries[k].value.FormText? ==>
      entries[k].value.text != "--" + boundary && entries[k].value.text != "--" + boundary + "--"
  }

  /** `text + "\r\n"` equals `line + "\r\n"` only when `text` equals `line`. */
  lemma LineBreakCancels(text: string, line: string)
    requires text + "\r\n" == line + "\r\n"
    ensures text == line
  {
    assert text == (text + "\r\n")[..|text|];
    assert line == (line + "\r\n")[..|line|];
  }

  /** The content of a part is neither delimiter line. */
  lemma ContentHasNoDelimiter(boundary: string, value: FormDataValue)
    requires value.FormText? ==> value.text != "--" + boundary && value.text != "--" + boundary + "--"
    ensures Encoded(Delimiter(boundary)) !in multiset(PartContent(value))
    ensures Encoded(CloseDelimiter(boundary)) !in multiset(PartContent(value))
  {
    if value.FormText? {
      if value.text + "\r\n" == Delimiter(boundary) {
        LineBreakCancels(value.text, "--" + boundary);
      }
      if value.text + "\r\n" == CloseDelimiter(boundary) {
        LineBreakCancels(value.text, "--" + boundary + "--");
      }
    }
  }

  /** A part opens with exactly one delimiter and holds no close delimiter. */
  lemma PartDelimiters(boundary: string, entry: FormEntry)
    requires entry.value.FormText? ==>
      entry.value.text != "--" + boundary && entry.value.text != "--" + boundary + "--"
    ensures multiset(PartChunks(boundary, entry))[Encoded(Delimiter(boundary))] == 1
    ensures multiset(PartChunks(boundary, entry))[Encoded(CloseDelimiter(boundary))] == 0
  {
    ContentHasNoDelimiter(boundary, entry.value);
    var opening := [Encoded(Delimiter(boundary)), Encoded(PartHeader(entry))];
    assert multiset(PartChunks(boundary, entry)) == multiset(opening) + multiset(PartContent(entry.value));
  }

  /**
   * When every part holds `c` once (or never), the parts of `entries` hold it
   * once per entry (or never).
   */
  lemma {:induction false} ConcatPartsCount(part: FormEntry -> seq<Chunk>, entries: seq<FormEntry>, c: Chunk, once: bool)
    requires forall k :: 0 <= k < |entries| ==> multiset(part(entries[k]))[c] == if once then 1 else 0
    ensures multiset(ConcatParts(part, entries))[c] == if once then |entries| else 0
    decreases |entries|
  {
    if entries != [] {
      var init := entries[..|entries| - 1];
      forall k | 0 <= k < |init| ensures multiset(part(init[k]))[c] == if once then 1 else 0 {
        assert init[k] == entries[k];
      }
      ConcatPartsCount(part, init, c, once);
      var last := part(entries[|entries| - 1]);
      assert ConcatParts(part, entries) == ConcatParts(part, init) + last;
      assert multiset(ConcatParts(part, entries)) == multiset(ConcatParts(part, init)) + multiset(last);
    }
  }

  /**
   * The body opens exactly one part per entry and ends with the only close
   * delimiter, provided no text value is itself a delimiter line.
   */
  lemma DelimiterCounts(boundary: string, entries: seq<FormEntry>)
    requires NoDelimiterValues(boundary, entries)
    ensures multiset(Framing(boundary, entries))[Encoded(Delimiter(boundary))] == |entries|
    ensures multiset(Framing(boundary, entries))[Encoded(CloseDelimiter(boundary))] == 1
    ensures Framing(boundary, entries)[|Framing(boundary, entries)| - 1] == Encoded(CloseDelimiter(boundary))
  {
    PartsDelimiters(boundary, entries);
    assert Delimiter(boundary) != CloseDelimiter(boundary);
  }

  /** The parts of `entries` open one delimiter per entry and hold no close delimiter. */
  lemma PartsDelimiters(boundary: string, entries: seq<FormEntry>)
    requires NoDelimiterValues(boundary, entries)
    ensures multiset(Parts(boundary, entries))[Encoded(Delimiter(boundary))] == |entries|
    ensures multiset(Parts(boundary, entries))[Encoded(CloseDelimiter(boundary))] == 0
  {
    var part := (entry: FormEntry) => PartChunks(boundary, entry);
    forall k | 0 <= k < |entries|
      ensures multiset(part(entries[k]))[Encoded(Delimiter(boundary))] == 1
      ensures multiset(part(entries[k]))[Encoded(CloseDelimiter(boundary))] == 0
    {
      PartDelimiters(boundary, entries[k]);
    }
    ConcatPartsCount(part, entries, Encoded(Delimiter(boundary)), true);
    ConcatPartsCount(part, entries, Encoded(CloseDelimiter(boundary)), false);
  }

  /** A form without entries is the close delimiter alone. */
  lemma EmptyForm(boundary: string)
    ensures Framing(boundary, []) == [Encoded(CloseDelimiter(boundary))]
  {
  }

  /** A text part: the delimiter line, the disposition naming the entry, then the text and a line break. */
  lemma TextPart(boundary: string, name: string, text: string)
    ensures PartChunks(boundary, FormEntry(name, FormText(text)))
         == [Encoded("--" + boundary + "\r\n"),
             Encoded("Content-Disposition: form-data; name=\"" + (name + "\"\r\n\r\n")),
             Encoded(text + "\r\n")]
  {
  }

  /** A blob part names the entry as file name and declares the blob's type, or `application/octet-stream` without one. */
  lemma BlobPart(boundary: string, name: string, blob: Blob)
    requires blob.bytes != []
    ensures PartChunks(boundary, FormEntry(name, FormBlob(blob)))
         == [Encoded(Delimiter(boundary)),
             Encoded("Content-Disposition: form-data; name=\"" + (name + "\"; filename=\"" + name + "\"\r\n"
                     + "Content-Type: " + BlobContentType(blob) + "\r\n\r\n")),
             Binary(blob.bytes),
             Encoded("\r\n")]
    ensures blob.mediaType == "" ==> BlobContentType(blob) == "application/octet-stream"
  {
  }

  /** The body stream handed to `fetch`. */
  class UploadStream {
    var chunks: seq<Chunk>
    var closed: bool
    var locked: bool
    var cancelled: bool
    const timeoutAbortController: AbortController

    constructor(timeoutAbortController: AbortController)
      ensures chunks == [] && !closed && !locked && !cancelled
      ensures this.timeoutAbortController == timeoutAbortController
    {
      chunks := [];
      closed := false;
      locked := false;
      cancelled := false;
      this.timeoutAbortController := timeoutAbortController;
    }

    /** `controller.enqueue(chunk)`, on a stream not yet closed. */
    method Enqueue(c: Chunk)
      requires !closed
      modifies this
      ensures chunks == old(chunks) + [c]
      ensures unchanged(this`closed, this`locked, this`cancelled)
    {
      chunks := chunks + [c];
    }

    /** `controller.close()`. */
    method Close()
      modifies this
      ensures closed
      ensures unchanged(this`chunks, this`locked, this`cancelled)
    {
      closed := true;
    }

    /** `fetch` takes a reader on the body it sends, which locks the stream. */
    method Lock()
      modifies this
      ensures locked
      ensures unchanged(this`chunks, this`closed, this`cancelled)
    {
      locked := true;
    }

    /**
     * `stream.cancel(reason)`: a locked stream rejects with a TypeError and
     * nothing happens; otherwise the stream's `cancel` callback aborts the
     * request's controller with the reason.
     */
    method Cancel(reason: Thrown) returns (r: Settled<bool>)
      modifies this, timeoutAbortController
      ensures old(locked) ==> r == Rejected(NewError("TypeError", "stream is locked"))
      ensures old(locked) ==> unchanged(this) && unchanged(timeoutAbortController)
      ensures !old(locked) ==> r == Fulfilled(true) && cancelled && timeoutAbortController.aborted
      ensures !old(locked) && !old(timeoutAbortController.aborted) ==> timeoutAbortController.reason == reason
      ensures unchanged(this`chunks, this`locked)
    {
      if locked {
        r := Rejected(NewError("TypeError", "stream is locked"));
      } else {
        cancelled := true;
        timeoutAbortController.Abort(Some(reason));
        r := Fulfilled(true);
      }
    }
  }

  /** One step of `processNextEntry`: the delimiter, the part's headers, then its content. */
  method WritePart(stream: UploadStream, boundary: string, entry: FormEntry)
    requires !stream.closed
    modifies stream
    ensures stream.chunks == old(stream.chunks) + PartChunks(boundary, entry)
    ensures unchanged(stream`closed, stream`locked, stream`cancelled)
  {
    stream.Enqueue(Encoded(Delimiter(boundary)));
    stream.Enqueue(Encoded(PartHeader(entry)));
    match entry.value {
      case FormText(text) =>
        stream.Enqueue(Encoded(text + "\r\n"));
      case FormBlob(blob) =>
        if blob.bytes != [] {
          stream.Enqueue(Binary(blob.bytes));
        }
        stream.Enqueue(Encoded("\r\n"));
    }
  }

  /** Writing entry `i` extends the parts of the entries before it to the parts of the entries up to it. */
  method WriteEntry(stream: UploadStream, boundary: string, entries: seq<FormEntry>, i: nat, ghost before: seq<Chunk>)
    requires i < |entries| && !stream.closed
    requires stream.chunks == before + Parts(boundary, entries[..i])
    modifies stream
    ensures stream.chunks == before + Parts(boundary, entries[..i + 1])
    ensures unchanged(stream`closed, stream`locked, stream`cancelled)
  {
    PartsPrefix(boundary, entries, i);
    ghost var written := Parts(boundary, entries[..i]);
    WritePart(stream, boundary, entries[i]);
    assert stream.chunks == before + (written + PartChunks(boundary, entries[i]));
  }

  /**
   * The stream's `start`: each entry in turn is written as a part (a blob's
   * bytes once read), then the close delimiter is enqueued and the stream
   * closed.
   */
  method ProcessEntries(stream: UploadStream, boundary: string, entries: seq<FormEntry>)
    requires !stream.closed
    modifies stream
    ensures stream.chunks == old(stream.chunks) + Framing(boundary, entries)
    ensures stream.closed
    ensures unchanged(stream`locked, stream`cancelled)
  {
    var i := 0;
    while i < |entries|
      invariant 0 <= i <= |entries|
      invariant stream.chunks == old(stream.chunks) + Parts(boundary, entries[..i])
      invariant !stream.closed
      invariant unchanged(stream`locked, stream`cancelled)
    {
      WriteEntry(stream, boundary, entries, i, old(stream.chunks));
      i := i + 1;
    }
    assert entries[..i] == entries;
    ghost var parts := Parts(boundary, entries);
    stream.Enqueue(Encoded(CloseDelimiter(boundary)));
    assert stream.chunks == old(stream.chunks) + (parts + [Encoded(CloseDelimiter(boundary))]);
    stream.Close();
  }

  // ---------------------------------------------------------------------------
  // The executor

  /** The request headers: the caller's, with `Content-Type` set to the multipart type and its boundary. */
  function RequestHeaders(request: LegacyMultipartRequest): (h: map<string, string>)
    ensures h.Keys == request.headersValue.Keys + {"Content-Type"}
    ensures h["Content-Type"] == "multipart/form-data; boundary=" + request.optionValues.boundary
    ensures forall k :: k in request.headersValue && k != "Content-Type" ==> h[k] == request.headersValue[k]
  {
    request.headersValue["Content-Type" := "multipart/form-data; boundary=" + request.optionValues.boundary]
  }

  /** What `fetch` is called with. */
  datatype FetchCall = FetchCall(
    headers: map<string, string>,
    httpMethod: string,
    body: seq<Chunk>,
    signal: AbortController)

  /**
   * `multipartHttpFetchClientExecutor(request)` up to the `fetch` call: the
   * body stream carries the framed form entries, the headers declare the same
   * boundary, and the request's controller is the signal.
   */
  method MultipartHttpFetchClientExecutor(request: LegacyMultipartRequest) returns (call: FetchCall, stream: UploadStream)
    ensures fresh(stream) && stream.locked && !stream.cancelled && stream.closed
    ensures stream.timeoutAbortController == request.optionValues.timeoutAbortController
    ensures call.headers == RequestHeaders(request) && call.httpMethod == "POST"
    ensures call.body == stream.chunks == Framing(request.optionValues.boundary, request.formData)
    ensures call.signal == request.optionValues.timeoutAbortController
  {
    stream := new UploadStream(request.optionValues.timeoutAbortController);
    ProcessEntries(stream, request.optionValues.boundary, request.formData);
    stream.Lock();
    call := FetchCall(RequestHeaders(request), "POST", stream.chunks, request.optionValues.timeoutAbortController);
  }

  /** How `fetch` settles: with the abort reason once its signal is aborted, else as the network does. */
  function FetchTransport(signal: AbortController, network: Settled<Response>): (r: Settled<Response>)
    reads signal
    ensures signal.aborted ==> r == Rejected(signal.reason)
    ensures !signal.aborted ==> r == network
  {
    if signal.aborted then Rejected(signal.reason) else network
  }

  /**
   * The timer as written: it cancels the stream `fetch` has locked, so the
   * cancel rejects, the controller is never aborted, and `fetch` settles as
   * the network does, however late.
   */
  method TimeoutAsWritten(stream: UploadStream, network: Settled<Response>)
      returns (cancelResult: Settled<bool>, transport: Settled<Response>)
    requires stream.locked && !stream.timeoutAbortController.aborted
    modifies stream, stream.timeoutAbortController
    ensures cancelResult.Rejected? && unchanged(stream)
    ensures !stream.timeoutAbortController.aborted
    ensures transport == network
  {
    cancelResult := stream.Cancel(Primitive("timeout"));
    transport := FetchTransport(stream.timeoutAbortController, network);
  }

  /**
   * The timer as intended: it aborts the request's controller, so `fetch`
   * rejects with an `AbortError` and the client reports the timeout error.
   */
  method TimeoutCorrected(timeoutAbortController: AbortController, network: Settled<Response>, handlers: seq<Handler>)
      returns (transport: Settled<Response>, outcome: Settled<HttpResponse<Value>>)
    requires !timeoutAbortController.aborted
    modifies timeoutAbortController
    ensures timeoutAbortController.aborted
    ensures transport == Rejected(AbortErrorReason)
    ensures outcome == Fulfilled(Failure(TimeoutError))
  {
    timeoutAbortController.Abort(None);
    transport := FetchTransport(timeoutAbortController, network);
    outcome := FetchClient(transport, handlers);
  }

  /** Had the cancel reached the controller, the string reason `'timeout'` would still give the network error. */
  lemma TimeoutReasonIsNetworkError(handlers: seq<Handler>)
    ensures FetchClient(Rejected(Primitive("timeout")), handlers) == Fulfilled(Failure(NetworkError))
    ensures FetchClient(Rejected(AbortErrorReason), handlers) == Fulfilled(Failure(TimeoutError))
  {
  }

  // ---------------------------------------------------------------------------
  // The client

  /**
   * The handler loop of `multipartHttpFetchClient`: the first handler that does
   * not return `undefined` decides, a throwing handler gives the generic
   * error, and the raw response is the outcome when every handler defers.
   */
  method HandleResponse(response: Response, handlers: seq<Handler>) returns (r: Settled<HttpResponse<Value>>)
    ensures r == ProcessHandlers(response, handlers).outcome
  {
    var i := 0;
    while i < |handlers|
      invariant 0 <= i <= |handlers|
      invariant DefersBefore(response, handlers, i)
    {
      var handlerResult := handlers[i](response);
      match handlerResult {
        case Answer(p) =>
          FirstDecidingHandler(response, handlers, i);
          return p;
        case Throw(_) =>
          FirstDecidingHandler(response, handlers, i);
          return ToErrorResponsePromise(GenericError);
        case Defer =>
      }
      i := i + 1;
    }
    AllHandlersDefer(response, handlers);
    r := Fulfilled(Success(Raw(response)));
  }

  /**
   * `multipartHttpFetchClient(request, ...handlers)`, given how the executor's
   * `fetch` settled: it behaves as `fetchClient` does.
   */
  method MultipartHttpFetchClient(transport: Settled<Response>, handlers: seq<Handler>)
      returns (r: Settled<HttpResponse<Value>>)
    ensures r == FetchClient(transport, handlers)
  {
    match transport {
      case Rejected(reason) =>
        r := Settle(NetworkErrorCatcher(reason));
      case Fulfilled(response) =>
        var handled := HandleResponse(response, handlers);
        if handled.Rejected? {
          r := Settle(NetworkErrorCatcher(handled.reason));
        } else {
          r := handled;
        }
    }
  }

  /** The client `createMultipartHttpFetchRequest` installs: the unwrapped outcome, and the request as debug context. */
  function HttpPromiseClient(multipartHttpClient: LegacyMultipartRequest -> Settled<HttpResponse<Value>>)
    : LegacyMultipartRequest -> (Settled<Value>, LegacyMultipartRequest)
  {
    (request: LegacyMultipartRequest) => (UnwrapHttpPromise(multipartHttpClient(request)), request)
  }

  /** `createMultipartHttpFetchRequest(baseUrl, path, multipartHttpClient, options)`, given `Date.now()`. */
  method CreateMultipartHttpFetchRequest(baseUrl: string, path: string,
      multipartHttpClient: LegacyMultipartRequest -> Settled<HttpResponse<Value>>,
      options: Option<PartialLegacyOptions>, now: nat)
      returns (r: LegacyMultipartHttpRequest<(Settled<Value>, LegacyMultipartRequest)>)
    ensures fresh(r)
    ensures r.multipartHttpClient == HttpPromiseClient(multipartHttpClient)
    ensures r.baseUrl == baseUrl && r.path == path
    ensures r.headersValue == map[] && r.formData == []
    ensures exists defaultController :: r.optionValues == LegacyOptionValues(options, defaultController, now)
  {
    r := new LegacyMultipartHttpRequest(HttpPromiseClient(multipartHttpClient), baseUrl, path, options, now);
  }

  /** `execute()` on such a request: an `HttpPromise` of the unwrapped outcome, with the request as debug context. */
  method ExecuteMultipartHttpFetchRequest(
      request: LegacyMultipartHttpRequest<(Settled<Value>, LegacyMultipartRequest)>,
      multipartHttpClient: LegacyMultipartRequest -> Settled<HttpResponse<Value>>)
      returns (p: HttpPromise<Value, LegacyMultipartRequest>)
    requires request.multipartHttpClient == HttpPromiseClient(multipartHttpClient)
    ensures fresh(p)
    ensures p.promise == UnwrapHttpPromise(multipartHttpClient(request.Content()))
    ensures p.debugContext == Some(request.Content())
    ensures !p.isThenAttached && !p.isCaughtAttached
  {
    var result := request.Execute();
    p := new HttpPromise(result.0, Some(result.1));
  }
}
