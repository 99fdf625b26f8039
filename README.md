# simple-http-rest-client, modelled in Dafny

This project models the decision logic of `simple-http-rest-client`, a
TypeScript library that turns `fetch` and `XMLHttpRequest` calls into
uniform HTTP outcomes. The model covers:

- **The outcome type.** An `HttpResponse` is a success holding a value or an
  error holding an `HttpError`. The library's catalogue holds four error codes.
- **The handler pipeline.** `processHandlers` tries the handlers in order, and
  the first one that does not return `undefined` decides. `networkErrorCatcher`
  classifies transport failures.
- **The handlers.** These are the status-code validator, the content-type
  validator, and the JSON, text and array-buffer body handlers with the default
  JSON error mapper.
- **The composed clients.** These are `fetchClient`, `defaultJsonFetchClient`
  and the legacy `fileFetchClient`.
- **`HttpPromise`.** This covers `processHttpResponse`, `unwrapHttpPromise`,
  `isHttpError`, `safeThen` and `safeCatch`, plus the promise wrapper class with
  its two "attached" flags.
- **`SynchronizedHttpPromise`.** A single-flight loader.
- **`PromiseMonitor`.** A registry of running promises.
- **`parseHeadersFromRawString`.** The parser of the raw header block of an
  `XMLHttpRequest`.
- **The multipart request builders and clients.** There are two of each: the
  `XMLHttpRequest` one under `src/lib/multipart`, and the legacy
  `ReadableStream` one under `src/lib/client`. The legacy client frames a
  multipart/form-data body; its delimiter lines follow section 5.1.1 of RFC
  2046 and each part's `Content-Disposition` follows section 4.2 of RFC 7578.

**How promises are modelled.** A promise is modelled by the settlement it
reaches: `Js.Settled` is either `Fulfilled(value)` or `Rejected(reason)`. A
callback passed to `then` or `catch` is a function returning a `Js.Completion`:
it returns the settlement the chain adopts, or it throws. `Js.Then` and
`Js.Catch` compute the settlement of the chained promise.

**How responses and values are modelled.** A `Response` is a record of its
status, status text, header list and body reads. Each body read (JSON, text,
array buffer) is an `Option`: `None` means the read rejects. A thrown value
(`Js.Thrown`) is one of three things:

- `null` or `undefined`, where reading a property throws a TypeError;
- a primitive;
- an object other than a function: its optional `errorCode` and `statusArguments`, and its other
  properties as text (an `Error`'s `name` and `message` among them).

An HttpError-shaped object is one whose `errorCode` is present. An `HttpError`
has the same three parts, so a server's JSON error body, the `HttpError` made
of it and the object thrown for it hold the same members.

**How state is modelled.**

- The classes `HttpPromise`, `SynchronizedHttpPromise`, `PromiseMonitor`, both
  `MultipartHttpRequest` builders, the `XMLHttpRequest` call (`XhrCall`), the
  `AbortController` and the upload stream are Dafny classes. Their methods
  update the same fields the source updates.
- Settlement of a pending promise, and each `XMLHttpRequest` event, is an
  explicit method call (an event).
- What the source reads from the clock (`Date.now()`) or from the network
  (the response, or the transport's rejection) is a parameter.

Where an older duplicate under `src/lib/client` imports names that do not
exist in the files beside it, those names are modelled like this:

- `unauthorizedError` and `notFoundError` are not defined in
  `src/lib/client/HttpResponse.ts`. They are modelled as two further distinct
  codes, `UNAUTHORIZED_ERROR` and `NOT_FOUND_ERROR`.
- `toJsonResponse` and `defaultJsonErrorMapper` are taken from
  `src/lib/handler/ResponseJsonHandler.ts`.
- The legacy client's imports from the package itself resolve to the modules
  of this model.

## Model

| member | source | states |
|---|---|---|
| HttpResponses.CatalogueDistinct | src/lib/client/HttpResponse.ts:46-60 | INTERNAL_ERROR, NETWORK_ERROR, TIMEOUT_ERROR and FORBIDDEN_ERROR are pairwise distinct codes |
| HttpResponses.ToErrorResponsePromise | src/lib/client/HttpResponse.ts:40-41 | the promise is fulfilled (never rejected), and holds the error variant with exactly the given error |
| HttpResponses.AsThrown | src/lib/client/HttpResponse.ts:4-17 | a thrown HttpError is the object itself: its errorCode, its optional statusArguments and its other properties |
| Js.IndexOf | src/lib/handler/ValidateContentTypeHandler.ts:24 | `indexOf` is -1 exactly when the text does not occur; otherwise it is an occurrence with no earlier occurrence |
| Js.Then | src/lib/client/FetchClient.ts:53-54 | `then` passes a rejection through unchanged, adopts what the callback returns, and rejects with what it throws |
| Js.Catch | src/lib/client/FetchClient.ts:55 | `catch` passes a fulfilment through unchanged, adopts what the callback returns, and rejects with what it throws |
| Js.Trim | src/lib/multipart/RawHeaderParser.ts:16 | a trimmed string neither starts nor ends with whitespace |
| Js.TrimSurrounded | src/lib/multipart/RawHeaderParser.ts:10 | `trim` ignores any whitespace added before and after a string |
| FetchApi.HeaderGet | src/lib/handler/ValidateContentTypeHandler.ts:23 | `headers.get` is null exactly when no header has that name |
| FetchApi.HeaderGetSingle | src/lib/handler/ValidateContentTypeHandler.ts:23 | a name present once in the header list reads back its value |
| FetchApi.ReadJson | src/lib/handler/ResponseJsonHandler.ts:51-52 | `response.json()` fulfils exactly when the body parses, with the parsed value |
| FetchApi.ReadText | src/lib/handler/ResponseTextHandler.ts:31 | `response.text()` fulfils exactly when the body can be read, with the text |
| FetchApi.ReadArrayBuffer | src/lib/handler/ResponseArrayBufferHandler.ts:30 | `response.arrayBuffer()` fulfils exactly when the body can be read, with the bytes |
| FetchResponseHandlers.ProcessHandlers | src/lib/handler/FetchResponseHandlers.ts:30-46 | at most every handler is called, and none only for an empty list; a promise is always returned, never undefined |
| FetchResponseHandlers.FirstDecidingHandler | src/lib/handler/FetchResponseHandlers.ts:34-43 | when handler k is the first not to return undefined, its promise is returned unchanged (a throw gives genericError), and exactly k+1 handlers are called |
| FetchResponseHandlers.AllHandlersDefer | src/lib/handler/FetchResponseHandlers.ts:45 | when every handler returns undefined, all of them are called and the outcome is success holding the raw response |
| FetchResponseHandlers.LaterHandlersNeverRun | src/lib/handler/FetchResponseHandlers.ts:37-38 | once a handler decides, handlers appended after the list change neither the outcome nor the handlers called |
| FetchResponseHandlers.NetworkErrorCatcher | src/lib/handler/FetchResponseHandlers.ts:57-67 | timeoutError exactly for an error named AbortError; networkError for every other non-nullish error; always an error variant; throws only on null or undefined |
| ValidateBasicStatusCodeHandler.ValidateBasicStatusCodes | src/lib/handler/ValidateBasicStatusCodeHandler.ts:13-26 | forbiddenError exactly on 403; success holding null exactly on 204; undefined exactly on every other status |
| ValidateBasicStatusCodeHandler.StatusOnly | src/lib/handler/ValidateBasicStatusCodeHandler.ts:13-26 | two responses with the same status get the same result, whatever their headers and body |
| ValidateContentTypeHandler.ValidateContentType | src/lib/handler/ValidateContentTypeHandler.ts:18-30 | undefined exactly when the content-type header is present and contains the searched text; otherwise a promise of genericError |
| ValidateContentTypeHandler.NeverSuccess | src/lib/handler/ValidateContentTypeHandler.ts:18-30 | the validator never answers with a success |
| ValidateContentTypeHandler.AcceptsSubstring | src/lib/handler/ValidateContentTypeHandler.ts:13-15 | a header holding the searched text anywhere is accepted, e.g. `json` in `application/vnd.myapp.type.v1+json` |
| ValidateContentTypeHandler.EmptySearchAcceptsPresentHeader | src/lib/handler/ValidateContentTypeHandler.ts:24 | an empty searched text accepts any present header |
| ResponseJsonHandler.DefaultJsonErrorMapper | src/lib/handler/ResponseJsonHandler.ts:26-32 | a body with an errorCode is returned as the error, every member kept (its AsJson is the body); any other object or value gives genericError; a null body throws; never a success |
| ResponseJsonHandler.ToJsonResponse | src/lib/handler/ResponseJsonHandler.ts:48-66 | never rejects; a body that does not parse gives genericError; ok gives success with the parsed value; not ok gives the mapper's result, or genericError when the mapper throws |
| ResponseJsonHandler.DefaultMapperKeepsBodyError | src/lib/handler/ResponseJsonHandler.ts:22-31 | with the default mapper, a non-ok response whose body has an errorCode yields that whole body as the error |
| ResponseJsonHandler.DefaultMapperNullBody | src/lib/handler/ResponseJsonHandler.ts:26-66 | with the default mapper, a non-ok response whose body is null yields genericError (the mapper's TypeError is caught) |
| ResponseTextHandler.ToTextResponse | src/lib/handler/ResponseTextHandler.ts:26-39 | never rejects; ok with readable text gives success with the text; ok with a failed read gives genericError; not ok gives exactly toJsonResponse with the same mapper |
| ResponseArrayBufferHandler.ToArrayBufferResponse | src/lib/handler/ResponseArrayBufferHandler.ts:25-39 | never rejects; ok with a readable buffer gives success with the bytes; ok with a failed read gives genericError; not ok gives exactly toJsonResponse with the same mapper |
| JsonFetchClient.JsonContentTypeValidator | src/lib/client/JsonFetchClient.ts:17-19 | undefined exactly when the content type contains `json`, otherwise genericError: validateContentType with `json` |
| JsonFetchClient.Pipeline | src/lib/client/JsonFetchClient.ts:28-31 | the three handlers run in order: 403 gives forbiddenError, 204 gives null, a non-JSON content type gives genericError, and otherwise toJsonResponse decides |
| JsonFetchClient.Forbidden | src/lib/client/JsonFetchClient.ts:30 | status 403 gives forbiddenError whatever the headers and body |
| JsonFetchClient.NoContent | src/lib/client/JsonFetchClient.ts:30 | status 204 gives success holding null even without a content type |
| JsonFetchClient.JsonSuccess | src/lib/client/JsonFetchClient.ts:30 | a 2xx JSON response gives success with its parsed body |
| JsonFetchClient.JsonDomainError | src/lib/client/JsonFetchClient.ts:30 | a non-2xx JSON response whose body has an errorCode gives that whole body as the error |
| JsonFetchClient.NotJson | src/lib/client/JsonFetchClient.ts:30 | a response without a JSON content type (other than 403/204) gives genericError before the body is read |
| FetchClients.FetchClient | src/lib/client/FetchClient.ts:52-55 | a received response goes through processHandlers; a transport rejection, and a handler promise that rejects, go through networkErrorCatcher |
| FetchClients.RejectsOnlyOnNullish | src/lib/client/FetchClient.ts:55 | the client only rejects when the rejection it classifies is null or undefined |
| FetchClients.NoHandlers | src/lib/client/FetchClient.ts:54 | with no handlers, the outcome is success holding the raw response |
| FetchClients.AbortIsTimeout | src/lib/client/FetchClient.ts:55 | a transport rejection named AbortError gives timeoutError |
| FetchClients.OtherRejectionIsNetwork | src/lib/client/FetchClient.ts:55 | any other non-nullish transport rejection gives networkError |
| FetchClients.ThrowingHandler | src/lib/client/FetchClient.ts:54 | a throwing handler gives genericError, which unwrapping turns into a rejection with genericError |
| FetchClients.RejectingHandler | src/lib/client/FetchClient.ts:53-55 | a handler promise that rejects is classified by networkErrorCatcher, because the catch follows the handler step |
| FetchClients.ExecuteHttpFetchRequest | src/lib/client/FetchClient.ts:85-89 | executing the request gives a new HttpPromise of the unwrapped client outcome, whose debug context is the request, with both flags clear |
| HttpPromises.ProcessHttpResponse | src/lib/promise/HttpPromise.ts:22-35 | an error variant throws exactly its error; a success returns its value, null included; only an undefined value throws genericError |
| HttpPromises.UnwrapHttpPromise | src/lib/promise/HttpPromise.ts:44-46 | a rejection passes through; a fulfilled outcome settles as processHttpResponse completes |
| HttpPromises.HttpErrorRoundTrip | src/lib/promise/HttpPromise.ts:53-55 | a thrown HttpError object is recognised by isHttpError, and a catch function receives that same error |
| HttpPromises.NotHttpErrors | src/lib/promise/HttpPromise.ts:53-55 | null, undefined, primitives and Errors without errorCode are not HttpErrors |
| HttpPromises.ToHttpError | src/lib/promise/HttpPromise.ts:79 | a catch function receives the rejection object itself: rethrowing what it received rethrows the same object |
| HttpPromises.Coerce | src/lib/promise/HttpPromise.ts:59-70 | a return passes through, an HttpError throw is rethrown unchanged, any other throw becomes genericError; what is thrown is always an HttpError |
| HttpPromises.SafeThen | src/lib/promise/HttpPromise.ts:57-72 | returns f(p) when f returns; rethrows an HttpError-shaped throw unchanged; turns any other throw into genericError |
| HttpPromises.SafeCatch | src/lib/promise/HttpPromise.ts:74-96 | a non-HttpError rejection gives genericError without calling the handler; otherwise the handler's result under the same rethrow rule |
| HttpPromises.RejectionSkipsThen | src/lib/promise/HttpPromise.ts:154-158 | a then function attached to a rejected promise does not run, and the rejection passes unchanged |
| HttpPromises.FulfilmentSkipsCatch | src/lib/promise/HttpPromise.ts:177-181 | a catch function attached to a fulfilled promise does not run |
| HttpPromises.ThenAdoptsOrCoerces | src/lib/promise/HttpPromise.ts:154-158 | the chained promise adopts the then function's result or HttpError throw; any other throw rejects with genericError |
| HttpPromises.CatchCoercesForeignRejection | src/lib/promise/HttpPromise.ts:76-95 | a rejection that is not HttpError-shaped ends as genericError whatever the catch function does |
| HttpPromises.ThenAfterRecovery | src/lib/promise/HttpPromise.ts:154-181 | after a catch function recovers a value, a later then function runs on that value |
| HttpPromises.HttpPromise.constructor | src/lib/promise/HttpPromise.ts:116-119 | both flags start false; the promise and the debug context are the given ones |
| HttpPromises.HttpPromise.Then | src/lib/promise/HttpPromise.ts:154-158 | sets isThenAttached, keeps isCaughtAttached, chains through safeThen, and returns the same instance |
| HttpPromises.HttpPromise.Catch | src/lib/promise/HttpPromise.ts:177-181 | sets isCaughtAttached, keeps isThenAttached, chains through safeCatch, and returns the same instance |
| HttpPromises.HttpPromise.ToPromise | src/lib/promise/HttpPromise.ts:192-197 | sets both flags and returns the current chained promise unchanged |
| HttpPromises.HttpPromise.GetDebugContext | src/lib/promise/HttpPromise.ts:204-206 | returns the constructor's debug context |
| HttpPromises.RecoveryScenario | src/lib/promise/HttpPromise.ts:154-197 | on the class, a rejected promise with a recovering catch, then a then function, ends in the then function's outcome on the recovered value |
| SynchronizedHttpPromises.ClearingChainAsWritten | src/lib/promise/SynchronizedHttpPromise.ts:20-30 | as written, the chain clears and passes the settlement through unchanged on a fulfilment and on an HttpError rejection; a rejection that is not an HttpError is not cleared and becomes genericError |
| SynchronizedHttpPromises.ChainsDifferOnForeignRejections | src/lib/promise/SynchronizedHttpPromise.ts:20-30 | the chain as written and the intended one agree exactly when the loader's promise does not reject with a non-HttpError |
| SynchronizedHttpPromises.ForeignRejectionNeverClears | src/lib/promise/SynchronizedHttpPromise.ts:26-30 | a loader promise rejected with a plain Error leaves the fields set |
| SynchronizedHttpPromises.ClearingChain | src/lib/promise/SynchronizedHttpPromise.ts:20-30 | corrected: the intended chain clears on every settlement and passes the value or the error through unchanged |
| SynchronizedHttpPromises.SynchronizedHttpPromise.constructor | src/lib/promise/SynchronizedHttpPromise.ts:12-13 | nothing is loading, and the loader has not been called |
| SynchronizedHttpPromises.SynchronizedHttpPromise.Load | src/lib/promise/SynchronizedHttpPromise.ts:18-35 | with nothing recorded, calls the loader once, attaches the clearing then and catch functions to the loader's HttpPromise (whose promise becomes the chain as written) and records that chain with its context; while a promise is recorded, does not call it; always returns a new HttpPromise of the recorded promise and context |
| SynchronizedHttpPromises.SynchronizedHttpPromise.SettleLoading | src/lib/promise/SynchronizedHttpPromise.ts:20-30 | the recorded promise settles as the chain as written says; the fields are cleared only when the clearing callback runs, and otherwise the settled promise stays recorded |
| SynchronizedHttpPromises.SynchronizedHttpPromise.ClearLoading | src/lib/promise/SynchronizedHttpPromise.ts:37-40 | both fields are cleared together |
| SynchronizedHttpPromises.SingleFlight | src/lib/promise/SynchronizedHttpPromise.ts:18-40 | two loads before settlement share one loader call and one promise in two wrappers; after settlement the next load calls the loader afresh, except after a non-HttpError rejection, when it gets the same genericError promise without a loader call |
| PromiseMonitors.Without | src/lib/promise/PromiseMonitor.ts:27 | deleting a key leaves exactly the other keys |
| PromiseMonitors.PromiseMonitor.constructor | src/lib/promise/PromiseMonitor.ts:18-20 | a new monitor has no running promises |
| PromiseMonitors.PromiseMonitor.Monitor | src/lib/promise/PromiseMonitor.ts:22-29 | registers the promise with its info (replacing an earlier entry, keeping its position) and returns the same promise |
| PromiseMonitors.PromiseMonitor.Settle | src/lib/promise/PromiseMonitor.ts:27 | when a promise settles, its entry and only its entry is removed |
| PromiseMonitors.PromiseMonitor.GetRunningPromises | src/lib/promise/PromiseMonitor.ts:31-33 | lists each running promise once, in insertion order |
| PromiseMonitors.PromiseMonitor.GetRunningPromisesWithInfo | src/lib/promise/PromiseMonitor.ts:35-37 | pairs each listed key with its record, whose promise is that key |
| PromiseMonitors.PromiseMonitor.GetRunningPromisesCount | src/lib/promise/PromiseMonitor.ts:39-41 | the count equals the number of keys listed |
| PromiseMonitors.MonitorTwiceThenSettle | src/lib/promise/PromiseMonitor.ts:22-29 | monitoring a promise twice leaves one entry with the second info; its settlement leaves none |
| RawHeaderParser.SplitLines | src/lib/multipart/RawHeaderParser.ts:10 | `split(/[\r\n]+/)` gives at least one line |
| RawHeaderParser.SplitLinesNoBreaks | src/lib/multipart/RawHeaderParser.ts:10 | no split line holds a CR or LF |
| RawHeaderParser.SplitAtRun | src/lib/multipart/RawHeaderParser.ts:10 | a run of CR/LF separates exactly one line from the rest, however long the run |
| RawHeaderParser.ColonIndexOf | src/lib/multipart/RawHeaderParser.ts:11 | the separator position is the index of the first ':', or -1 when there is none |
| RawHeaderParser.ParseLineAt | src/lib/multipart/RawHeaderParser.ts:11-17 | a line whose first ':' is at k>1 gives the name before it and the trimmed text after it; at 0 or 1 it is dropped |
| RawHeaderParser.ParseLineNoColon | src/lib/multipart/RawHeaderParser.ts:12 | a line without ':' is dropped |
| RawHeaderParser.ValueKeepsColons | src/lib/multipart/RawHeaderParser.ts:13-16 | the value keeps its own colons, e.g. `21:04:30` |
| RawHeaderParser.SpaceAfterColon | src/lib/multipart/RawHeaderParser.ts:16 | a space after the colon or none parse identically |
| RawHeaderParser.TrailingColon | src/lib/multipart/RawHeaderParser.ts:16 | a colon as last character gives an empty value |
| RawHeaderParser.HeadersOfAppend | src/lib/multipart/RawHeaderParser.ts:10-19 | headers are appended in line order: the headers of two runs of lines are those of the first, then those of the second |
| RawHeaderParser.ParseHeadersFromRawString | src/lib/multipart/RawHeaderParser.ts:8-21 | the loop appends, line by line, the headers the pure specification gives |
| RawHeaderParser.EmptyInput | src/lib/multipart/RawHeaderParser.ts:10 | an empty input yields no headers |
| RawHeaderParser.SurroundingWhitespace | src/lib/multipart/RawHeaderParser.ts:10 | whitespace around the whole block yields no extra headers |
| RawHeaderParser.TrailingCrlf | src/lib/multipart/RawHeaderParser.ts:10 | a final CRLF yields no extra header |
| RawHeaderParser.HeaderLineParses | src/lib/multipart/RawHeaderParser.ts:11-17 | a well-formed `name: value` line (a token name, a trimmed value) parses back to the pair |
| RawHeaderParser.ParseRawBlock | src/lib/multipart/RawHeaderParser.ts:8-21 | round trip: the CRLF block of any list of well-formed headers (token names that `Headers.append` accepts) parses back to exactly that list, in order |
| RawHeaderParser.SingleLine | src/lib/multipart/RawHeaderParser.ts:8-21 | one well-formed header line, with or without its final CRLF, parses to that header |
| MultipartHttpRequests.Coalesce | src/lib/multipart/MultipartHttpRequest.ts:42-44 | `??` keeps a supplied value and falls back only on null or undefined |
| MultipartHttpRequests.DefaultOptions | src/lib/multipart/MultipartHttpRequest.ts:41-45 | defaults: timeout 60000, no-op progress callback, withCredentials false |
| MultipartHttpRequests.SuppliedOptionsWin | src/lib/multipart/MultipartHttpRequest.ts:42-44 | each supplied option wins, 0 included |
| MultipartHttpRequests.EntryOf | src/lib/multipart/MultipartHttpRequest.ts:56 | the appended entry has the given name and the text or blob as value |
| MultipartHttpRequests.TruthyEntries | src/lib/multipart/MultipartHttpRequest.ts:53-60 | data appends at most one entry per given pair |
| MultipartHttpRequests.TruthyEntriesAppend | src/lib/multipart/MultipartHttpRequest.ts:53-60 | entries are appended in order: data on a concatenation appends those of the first list, then those of the second |
| MultipartHttpRequests.AllTruthyKept | src/lib/multipart/MultipartHttpRequest.ts:55-56 | when every value is truthy, every pair is appended, in order |
| MultipartHttpRequests.FalsyEntryDropped | src/lib/multipart/MultipartHttpRequest.ts:55 | a falsy value (undefined or '') is skipped |
| MultipartHttpRequests.FileEntries | src/lib/multipart/MultipartHttpRequest.ts:67-72 | files appends one entry named `file` per file, in order |
| MultipartHttpRequests.FilesAreData | src/lib/multipart/MultipartHttpRequest.ts:62-72 | files is data on one `['file', f]` pair per file |
| MultipartHttpRequests.MultipartHttpRequest.Content | src/lib/multipart/MultipartHttpRequest.ts:14-26 | the request a client sees carries the current headers and form data |
| MultipartHttpRequests.MultipartHttpRequest.constructor | src/lib/multipart/MultipartHttpRequest.ts:28-46 | keeps client, base URL, method and path; starts with empty headers and form data; the options are the defaults overridden by supplied values |
| MultipartHttpRequests.MultipartHttpRequest.Headers | src/lib/multipart/MultipartHttpRequest.ts:48-51 | given keys are set (later ones win), other keys are kept, and the same instance is returned |
| MultipartHttpRequests.MultipartHttpRequest.Data | src/lib/multipart/MultipartHttpRequest.ts:53-60 | appends the truthy entries in order, and returns the same instance |
| MultipartHttpRequests.MultipartHttpRequest.File | src/lib/multipart/MultipartHttpRequest.ts:62-65 | appends one entry named `file` |
| MultipartHttpRequests.MultipartHttpRequest.Files | src/lib/multipart/MultipartHttpRequest.ts:67-72 | appends one `file` entry per file, in order |
| MultipartHttpRequests.MultipartHttpRequest.Execute | src/lib/multipart/MultipartHttpRequest.ts:81-83 | returns the client's result on this request |
| MultipartHttpRequests.BuildAndExecute | src/lib/multipart/MultipartHttpRequest.ts:48-83 | building a request with headers and data, then executing it, hands the client exactly those headers and the truthy entries |
| MultipartHttpClients.CreateResponseFromXhr | src/lib/multipart/MultipartHttpClient.ts:12-25 | the response carries the xhr status, status text and body, and the headers parsed from the raw string |
| MultipartHttpClients.ResponseHeadersRoundTrip | src/lib/multipart/MultipartHttpClient.ts:12-25 | the response carries back exactly the well-formed headers (token names) the server sent, in order |
| MultipartHttpClients.SingleHeaderReadBack | src/lib/multipart/MultipartHttpClient.ts:14 | a single well-formed header line can be read back by name from the response |
| MultipartHttpClients.EventSettlementAsWritten | src/lib/multipart/MultipartHttpClient.ts:57-70 | load resolves with the response; error and upload error reject with NETWORK_ERROR; timeout rejects with TIMEOUT_ERROR; progress and abort settle nothing |
| MultipartHttpClients.TimerAbortNeverSettlesAsWritten | src/lib/multipart/MultipartHttpClient.ts:37-40 | the abort the timer causes settles nothing |
| MultipartHttpClients.EventSettlement | src/lib/multipart/MultipartHttpClient.ts:37-70 | corrected: as written, except that an abort rejects like a timeout |
| MultipartHttpClients.XhrCall.SetRequestHeader | src/lib/multipart/MultipartHttpClient.ts:52 | sets the header, combining a repeated name's values with ", " |
| MultipartHttpClients.XhrCall.constructor | src/lib/multipart/MultipartHttpClient.ts:43-54 | every headersValue entry is set; credentials and body come from the request; the timer is pending and nothing has settled |
| MultipartHttpClients.XhrCall.OnEvent | src/lib/multipart/MultipartHttpClient.ts:57-70 | handled by the installed handlers as written: progress goes to the caller's callback; the first settling event decides the outcome and clears the timer; abort settles nothing; an aborted request changes nothing more |
| MultipartHttpClients.XhrCall.SettleOnce | src/lib/multipart/MultipartHttpClient.ts:43-75 | only the first settlement counts, and settling clears the timer |
| MultipartHttpClients.XhrCall.TimerElapses | src/lib/multipart/MultipartHttpClient.ts:37-40 | a pending timer aborts the request and leaves the promise as it was; otherwise nothing changes |
| MultipartHttpClients.LoadBeforeTimer | src/lib/multipart/MultipartHttpClient.ts:37-75 | a load before the timer resolves with the response, and a later timer changes nothing |
| MultipartHttpClients.TimerBeforeLoad | src/lib/multipart/MultipartHttpClient.ts:37-75 | a timer before the load aborts the request and the promise never settles, a later load included; progress already reported reached only a caller's callback |
| MultipartHttpClients.MultipartHttpFetchClient | src/lib/multipart/MultipartHttpClient.ts:82-87 | a resolved upload goes through processHandlers; a rejection goes through networkErrorCatcher |
| MultipartHttpClients.UploadFailuresAreNetworkErrors | src/lib/multipart/MultipartHttpClient.ts:60-87 | every rejection of the upload, timeout included, ends as networkError, since none is named AbortError; so would the corrected abort's TIMEOUT_ERROR rejection |
| MultipartHttpClients.LoadedUploadIsHandled | src/lib/multipart/MultipartHttpClient.ts:85-86 | a loaded upload with no handlers gives success holding the response built from the xhr |
| MultipartHttpClients.CreateMultipartHttpFetchRequest | src/lib/multipart/MultipartHttpClient.ts:104-121 | a new request with that client, URL, method, path and option values, and empty headers and form data |
| MultipartHttpClients.ExecuteMultipartHttpFetchRequest | src/lib/multipart/MultipartHttpClient.ts:111-115 | execute gives a new HttpPromise of the unwrapped outcome, whose debug context is the request |
| LegacyContentTypeValidator.ContentTypeValidator | src/lib/client/ContentTypeValidator.ts:17-29 | undefined exactly when the header is present and contains the searched text; otherwise a genericError answer, never a success |
| LegacyContentTypeValidator.SameAsValidateContentType | src/lib/client/ContentTypeValidator.ts:17-29 | the legacy validator agrees with validateContentType on every input |
| LegacyFetchStatusValidators.ValidateBasicStatusCodes | src/lib/client/FetchStatusValidators.ts:15-38 | 401, 403 and 404 give unauthorizedError, forbiddenError and notFoundError; 204 gives null; each exactly on its status; every other status gives undefined |
| LegacyFetchStatusValidators.AgreesExceptUnauthorizedAndNotFound | src/lib/client/FetchStatusValidators.ts:15-38 | the legacy validator agrees with the current one except on 401 and 404 |
| LegacyFileFetchClient.ToArrayBufferResponse | src/lib/client/FileFetchClient.ts:24-40 | never rejects; ok with a readable buffer gives its bytes; ok with a failed read gives genericError; not ok gives toJsonResponse |
| LegacyFileFetchClient.SameAsArrayBufferHandler | src/lib/client/FileFetchClient.ts:24-40 | the legacy handler agrees with the current toArrayBufferResponse on every input |
| LegacyFileFetchClient.OctetStreamTypeValidator | src/lib/client/FileFetchClient.ts:46-48 | undefined exactly when the content type contains `application/octet-stream`, otherwise genericError |
| LegacyFileFetchClient.Pipeline | src/lib/client/FileFetchClient.ts:58-63 | the status validator, the octet-stream validator and the array-buffer handler run in that order, case by case |
| LegacyFileFetchClient.FileDownloaded | src/lib/client/FileFetchClient.ts:58-63 | a 2xx octet-stream response with a readable body gives its bytes |
| LegacyMultipartHttpRequests.AbortController.constructor | src/lib/client/MultipartHttpRequest.ts:38 | a new controller is not aborted |
| LegacyMultipartHttpRequests.AbortController.Abort | src/lib/client/MultipartHttpClient.ts:84-86 | the first abort records the given reason, or an AbortError without one; later aborts change nothing |
| LegacyMultipartHttpRequests.DecimalString | src/lib/client/MultipartHttpRequest.ts:41 | `${n}` is a non-empty digit string without leading zero |
| LegacyMultipartHttpRequests.DecimalRoundTrip | src/lib/client/MultipartHttpRequest.ts:41 | the digits of `${n}` read back as n |
| LegacyMultipartHttpRequests.DefaultBoundary | src/lib/client/MultipartHttpRequest.ts:41 | the default boundary is `boundary-` followed by the decimal digits of the clock reading |
| LegacyMultipartHttpRequests.DefaultBoundariesDiffer | src/lib/client/MultipartHttpRequest.ts:41 | different clock readings give different default boundaries |
| LegacyMultipartHttpRequests.LegacyOptionValues | src/lib/client/MultipartHttpRequest.ts:36-42 | defaults: timeout 60000, a new controller, a no-op callback, the clock boundary; each supplied option takes precedence |
| LegacyMultipartHttpRequests.LegacyMultipartHttpRequest.Content | src/lib/client/MultipartHttpRequest.ts:13-23 | the request a client sees carries the current headers, form data and option values |
| LegacyMultipartHttpRequests.LegacyMultipartHttpRequest.constructor | src/lib/client/MultipartHttpRequest.ts:25-43 | empty headers and form data; options as LegacyOptionValues; a supplied controller is kept, otherwise a fresh controller that is not aborted |
| LegacyMultipartHttpRequests.LegacyMultipartHttpRequest.Headers | src/lib/client/MultipartHttpRequest.ts:45-48 | given keys are set (later ones win), other keys are kept, and the same instance is returned |
| LegacyMultipartHttpRequests.LegacyMultipartHttpRequest.Data | src/lib/client/MultipartHttpRequest.ts:50-57 | appends the truthy entries in order |
| LegacyMultipartHttpRequests.LegacyMultipartHttpRequest.Execute | src/lib/client/MultipartHttpRequest.ts:66-68 | returns the client's result on this request |
| LegacyMultipartHttpClients.BlobContentType | src/lib/client/MultipartHttpClient.ts:41 | a blob's own type, or `application/octet-stream` when it is empty; never empty |
| LegacyMultipartHttpClients.EmptyForm | src/lib/client/MultipartHttpClient.ts:29-33 | with no entries the body is exactly `--B--\r\n` |
| LegacyMultipartHttpClients.TextPart | src/lib/client/MultipartHttpClient.ts:48-53 | a text entry gives `--B\r\n`, `Content-Disposition: form-data; name="N"\r\n\r\n`, then the value and `\r\n` |
| LegacyMultipartHttpClients.BlobPart | src/lib/client/MultipartHttpClient.ts:38-46 | a blob entry gives `--B\r\n`, a disposition with name and filename N, `Content-Type: T\r\n\r\n`, the bytes, then `\r\n` |
| LegacyMultipartHttpClients.PartsAppend | src/lib/client/MultipartHttpClient.ts:56-61 | entries are framed one after the other, in order: the body of a concatenation is the parts of the first list followed by the body of the second |
| LegacyMultipartHttpClients.DelimiterCounts | src/lib/client/MultipartHttpClient.ts:28-38 | each entry opens with exactly one delimiter line, and the close delimiter appears exactly once, at the end |
| LegacyMultipartHttpClients.UploadStream.Cancel | src/lib/client/MultipartHttpClient.ts:84-86 | cancelling a locked stream rejects with a TypeError and changes nothing; otherwise the cancel callback aborts the controller with the reason |
| LegacyMultipartHttpClients.ProcessEntries | src/lib/client/MultipartHttpClient.ts:28-82 | the stream receives exactly the framing of the entries, then is closed |
| LegacyMultipartHttpClients.RequestHeaders | src/lib/client/MultipartHttpClient.ts:95-98 | the caller's headers, with Content-Type set to `multipart/form-data; boundary=B` whatever the caller gave |
| LegacyMultipartHttpClients.MultipartHttpFetchClientExecutor | src/lib/client/MultipartHttpClient.ts:20-106 | fetch is called with POST, those headers, the framed body stream (locked by fetch) and the controller's signal |
| LegacyMultipartHttpClients.FetchTransport | src/lib/client/MultipartHttpClient.ts:92-104 | fetch rejects with the signal's reason once it is aborted, else settles as the network does |
| LegacyMultipartHttpClients.TimeoutAsWritten | src/lib/client/MultipartHttpClient.ts:88-91 | the timer's cancel on the locked stream rejects, the controller is not aborted, and fetch settles as the network does |
| LegacyMultipartHttpClients.TimeoutCorrected | src/lib/client/MultipartHttpClient.ts:88-91 | aborting the controller at the timeout rejects fetch with an AbortError, and the client gives timeoutError |
| LegacyMultipartHttpClients.TimeoutReasonIsNetworkError | src/lib/client/MultipartHttpClient.ts:126 | an abort with the reason 'timeout' would give networkError; an AbortError gives timeoutError |
| LegacyMultipartHttpClients.HandleResponse | src/lib/client/MultipartHttpClient.ts:112-125 | the inline loop returns the first handler result, genericError on a throw, and success holding the response when no handler answers: processHandlers |
| LegacyMultipartHttpClients.MultipartHttpFetchClient | src/lib/client/MultipartHttpClient.ts:108-126 | the legacy client is fetchClient over the transport: handlers on a response, networkErrorCatcher on a rejection |
| LegacyMultipartHttpClients.CreateMultipartHttpFetchRequest | src/lib/client/MultipartHttpClient.ts:132-147 | a new request with that client, URL and path, empty headers and form data, and options as LegacyOptionValues |
| LegacyMultipartHttpClients.ExecuteMultipartHttpFetchRequest | src/lib/client/MultipartHttpClient.ts:139-142 | execute gives a new HttpPromise of the unwrapped outcome, whose debug context is the request |

## Left out

- Timers, `fetch`, and `XMLHttpRequest` `open`/`send`. These are I/O. Transport results, events and clock readings are parameters or event methods instead.
- `fetchClientExecutor` (src/lib/client/FetchClient.ts:16-33). It is network and timer I/O; the model takes the settlement of the transport as a parameter.
- `buildUrl`, `encodeURI` and the URL validation of `new URL(baseUrl)`. These belong to the platform's URL library.
- Logging calls. They have no effect on outcomes.
- The deferred diagnostic check in the `HttpPromise` constructor. It runs on a timer and only logs; the two flags it reads are modelled.
- `HttpPromiseMonitor` and `src/index.ts`. One is a one-line adapter over `PromiseMonitor.monitor`; the other is export wiring.
- JSON parsing, text decoding and UTF-8 encoding. Body reads are abstract `Option` results. A text part of the legacy framing is one `Encoded` chunk, not its UTF-8 bytes.
- The case-insensitivity of the `Headers` object. Headers are an ordered list of (name, value) pairs. A caller header named `content-type` in lower case would be combined with, not replaced by, the legacy client's `Content-Type`; the model treats names as case-sensitive.
- The key order of header records. Header records are maps.
- The order of microtasks between `SynchronizedHttpPromise`, `PromiseMonitor` and their callers. Settlement is an explicit event.
- The retyping of `then` and `catch` (`HttpPromise<R>`). The model keeps one value type.
- The identity of promises and requests. A client receives the request's current contents as a value (`Content()`), not the object itself. A progress callback is known by an identifier.
- Reader chunking of a blob in the legacy stream. A blob is written as one chunk, and an empty blob writes none.
- The asynchronous interleaving of the stream's `start` with `fetch`. The body is written before `fetch` locks the stream.
- The `clearTimeout` in the `finally` of the legacy fetch executor (src/lib/client/MultipartHttpClient.ts:105). The `XMLHttpRequest` executor's is modelled by `XhrCall.SettleOnce`.
- The status checks of the `Response` constructor in `createResponseFromXhr`.
- MultipartHttpClients.HttpPromiseClient: has no ensures clause. The partner method `ExecuteMultipartHttpFetchRequest` states what the installed client gives.
- LegacyMultipartHttpClients.HttpPromiseClient: has no ensures clause. Its result holds a reference-typed request, and a quantified ensures over such results is not expressible in a function. The partner method `ExecuteMultipartHttpFetchRequest` states what it gives.
- LegacyMultipartHttpClients.DelimiterCounts: counts whole delimiter chunks, not byte-level occurrences of the boundary inside the content. It assumes no text value equals a delimiter line. Choosing a boundary absent from the content (section 5.1.1 of RFC 2046) is left to the caller, as in the source.
- LegacyFetchStatusValidators.ValidateBasicStatusCodes: `unauthorizedError` and `notFoundError` are not defined in the library. The codes `UNAUTHORIZED_ERROR` and `NOT_FOUND_ERROR` are assumed, and only their distinctness from the catalogue matters.
- ResponseJsonHandler.DefaultJsonErrorMapper: a JSON body's members are carried as text, `statusArguments` as a list of texts. A non-string `errorCode` (a number, `null`, an object) is carried as its JSON text; it counts as present, as `typeof json.errorCode !== 'undefined'` does. A `statusArguments` member that is not an array of strings is not expressed. No code of the library inspects either type.
- ResponseJsonHandler.DefaultMapperKeepsBodyError: as for DefaultJsonErrorMapper, a non-string `errorCode` is carried as its JSON text.
- JsonFetchClient.JsonDomainError: as for DefaultJsonErrorMapper, a non-string `errorCode` is carried as its JSON text.
- RawHeaderParser.ParseHeadersFromRawString: the TypeError that `Headers.append` throws on a name that is not a token (section 5.6.2 of RFC 9110) or on a value holding NUL is not modelled. Such a line, for example `X-Foo : bar` or an indented continuation line, yields a pair in the model. The round-trip lemmas (`WellFormed`) are stated only for token names and NUL-free values, on which the source does not throw.
- Thrown functions. `Js.Thrown.Object` stands for an object that is not a function; a thrown function carrying an `errorCode` is not an HttpError in the source (`typeof` is 'function') and is not expressed.
- Js.Trim: the ensures clause states only the ends of the result. What `trim` removes is stated by `TrimSurrounded` and the `TrimStart`/`TrimEnd` contracts.

## Findings

| source | as written | input that shows it | evidently intended | confidence | as-written member | corrected member |
|---|---|---|---|---|---|---|
| src/lib/promise/SynchronizedHttpPromise.ts:20-30 | `load` attaches its clearing `catch` through `HttpPromise.catch`, that is through `safeCatch`. A rejection that is not HttpError-shaped becomes genericError without running the callback, so `loadingPromise` is never cleared. Every later `load` then returns the same rejected promise without calling the loader (the class and `SingleFlight` model this as written). | a loader whose promise rejects with `new Error('boom')` | clear the fields on every settlement and pass the error through | medium, not executed | SynchronizedHttpPromises.ForeignRejectionNeverClears | SynchronizedHttpPromises.ClearingChain |
| src/lib/multipart/MultipartHttpClient.ts:37-40 | The timeout timer calls `xhr.abort()`, but no `onabort` handler is installed, so the returned promise never settles (`XhrCall` and `TimerBeforeLoad` model this as written). `xhr.timeout` is never set, so `ontimeout` never fires either. | an upload still in flight when `timeoutInMillis` elapses | reject with TIMEOUT_ERROR when the timer fires | medium, not executed | MultipartHttpClients.TimerAbortNeverSettlesAsWritten | MultipartHttpClients.EventSettlement |
| src/lib/client/MultipartHttpClient.ts:88-91 | The timer calls `stream.cancel('timeout')` on the body stream, which `fetch` has locked. Cancelling a locked stream rejects with a TypeError and does not run the cancel callback, so the controller is never aborted and the timeout has no effect. Had the abort run, the reason 'timeout' has no name `AbortError`, so the outcome would be networkError. | any upload still in flight when `timeoutInMillis` elapses | abort the request at the timeout and report timeoutError | medium, not executed | LegacyMultipartHttpClients.TimeoutAsWritten | LegacyMultipartHttpClients.TimeoutCorrected |
