/**
 * `MultipartHttpRequest`: the builder of a multipart upload. Its options get
 * defaults, `headers` merges request headers, `data`/`file`/`files` append
 * form entries, and `execute` hands the request to its client.
 */
module MultipartHttpRequests {
  import opened Js
  import opened FetchApi

  /** `DEFAULT_TIMEOUT_IN_MILLIS`: one minute. */
  const DefaultTimeoutInMillis: int := 60000

  /** An upload progress event: bytes sent so far and bytes to send. */
  datatype ProgressEvent = ProgressEvent(loaded: nat, total: nat)

  /** A progress callback: the default one does nothing; a caller's one is known by an identity. */
  datatype ProgressCallback = NoOpCallback | CallerCallback(callbackId: nat)

  datatype MultipartHttpOptions = MultipartHttpOptions(
    timeoutInMillis: int,
    onProgressCallback: ProgressCallback,
    withCredentials: bool)

  /** `Partial<MultipartHttpOptions>`: each option is `None` when `null` or `undefined`. */
  datatype PartialOptions = PartialOptions(
    timeoutInMillis: Option<int>,
    onProgressCallback: Option<ProgressCallback>,
    withCredentials: Option<bool>)

  /** `value ?? fallback`: only a `null` or `undefined` value falls back. */
  function Coalesce<T>(value: Option<T>, fallback: T): (r: T)
    ensures value.Some? ==> r == value.value
    ensures value.None? ==> r == fallback
  {
    if value.Some? then value.value else fallback
  }

  /** The option a caller supplied (`options?.x`), `None` when `options` itself is absent. */
  function Supplied<T>(options: Option<PartialOptions>, field: PartialOptions -> Option<T>): Option<T>
  {
    if options.Some? then field(options.value) else None
  }

  /** The option values the constructor computes from the caller's partial options. */
  function OptionValues(options: Option<PartialOptions>): (r: MultipartHttpOptions)
  {
    MultipartHttpOptions(
      Coalesce(Supplied(options, (o: PartialOptions) => o.timeoutInMillis), DefaultTimeoutInMillis),
      Coalesce(Supplied(options, (o: PartialOptions) => o.onProgressCallback), NoOpCallback),
      Coalesce(Supplied(options, (o: PartialOptions) => o.withCredentials), false))
  }

  /** Without options, the timeout is one minute, progress is ignored and credentials are not sent. */
  lemma DefaultOptions()
    ensures OptionValues(None) == MultipartHttpOptions(60000, NoOpCallback, false)
    ensures OptionValues(Some(PartialOptions(None, None, None))) == OptionValues(None)
  {
  }

  /**
   * Each supplied option wins over its default, a falsy one included: a zero
   * timeout and `withCredentials: false` are kept, not replaced.
   */
  lemma SuppliedOptionsWin(options: PartialOptions)
    ensures options.timeoutInMillis.Some? ==> OptionValues(Some(options)).timeoutInMillis == options.timeoutInMillis.value
    ensures options.onProgressCallback.Some? ==>
      OptionValues(Some(options)).onProgressCallback == options.onProgressCallback.value
    ensures options.withCredentials.Some? ==> OptionValues(Some(options)).withCredentials == options.withCredentials.value
    ensures options.timeoutInMillis == Some(0) ==> OptionValues(Some(options)).timeoutInMillis == 0
  {
  }

  /** A value given to `data`: a string, a `Blob` (or `File`), or `undefined`. */
  datatype DataValue = Missing | DataText(text: string) | DataBlob(blob: Blob)

  /** JavaScript truthiness of a data value: `undefined` and `''` are falsy, every `Blob` is truthy. */
  predicate Truthy(v: DataValue)
  {
    match v
    case Missing => false
    case DataText(t) => t != ""
    case DataBlob(_) => true
  }

  /** The form entry `formData.append(name, value)` adds for a truthy value. */
  function EntryOf(name: string, v: DataValue): (e: FormEntry)
    requires Truthy(v)
    ensures e.name == name
    ensures v.DataText? ==> e.value == FormText(v.text)
    ensures v.DataBlob? ==> e.value == FormBlob(v.blob)
  {
    FormEntry(name, if v.DataText? then FormText(v.text) else FormBlob(v.blob))
  }

  /** The form entries `data(entries)` appends: the truthy entries, in order. */
  function TruthyEntries(entries: seq<(string, DataValue)>): (r: seq<FormEntry>)
    ensures |r| <= |entries|
  {
    if entries == [] then []
    else
      var last := entries[|entries| - 1];
      TruthyEntries(entries[..|entries| - 1]) + (if Truthy(last.1) then [EntryOf(last.0, last.1)] else [])
  }

  /** Calling `data` twice appends what one call on the concatenated entries appends. */
  lemma {:induction false} TruthyEntriesAppend(a: seq<(string, DataValue)>, b: seq<(string, DataValue)>)
    ensures TruthyEntries(a + b) == TruthyEntries(a) + TruthyEntries(b)
    decreases |b|
  {
    if b == [] {
      assert a + b == a;
    } else {
      var b' := b[..|b| - 1];
      assert (a + b)[..|a + b| - 1] == a + b';
      assert (a + b)[|a + b| - 1] == b[|b| - 1];
      TruthyEntriesAppend(a, b');
    }
  }

  /**
   * Exactly the truthy entries are kept: when every entry is truthy all are
   * appended, in order; an `undefined` or empty-string entry adds nothing.
   */
  lemma {:induction false} AllTruthyKept(entries: seq<(string, DataValue)>)
    requires forall k :: 0 <= k < |entries| ==> Truthy(entries[k].1)
    ensures |TruthyEntries(entries)| == |entries|
    ensures forall k :: 0 <= k < |entries| ==> TruthyEntries(entries)[k] == EntryOf(entries[k].0, entries[k].1)
    decreases |entries|
  {
    if entries != [] {
      var n := |entries| - 1;
      var init := entries[..n];
      forall k | 0 <= k < n ensures Truthy(init[k].1) {
        assert init[k] == entries[k];
      }
      AllTruthyKept(init);
      forall k | 0 <= k < n ensures TruthyEntries(entries)[k] == EntryOf(entries[k].0, entries[k].1) {
        assert init[k] == entries[k];
      }
    }
  }

  lemma FalsyEntryDropped(entries: seq<(string, DataValue)>, name: string, v: DataValue)
    requires !Truthy(v)
    ensures TruthyEntries(entries + [(name, v)]) == TruthyEntries(entries)
    ensures TruthyEntries([(name, v)] + entries) == TruthyEntries(entries)
  {
    TruthyEntriesAppend([(name, v)], entries);
    assert [(name, v)][..0] == [];
  }

  /** The entries `files(files)` appends: one entry named `file` per file, in order. */
  function FileEntries(files: seq<Blob>): (r: seq<FormEntry>)
    ensures |r| == |files|
    ensures forall k :: 0 <= k < |files| ==> r[k] == FormEntry("file", FormBlob(files[k]))
  {
    seq(|files|, k requires 0 <= k < |files| => FormEntry("file", FormBlob(files[k])))
  }

  /** `files(files)` is `data` on one `['file', f]` pair per file. */
  lemma FilesAreData(files: seq<Blob>)
    ensures FileEntries(files) == TruthyEntries(seq(|files|, k requires 0 <= k < |files| => ("file", DataBlob(files[k]))))
  {
    var pairs := seq(|files|, k requires 0 <= k < |files| => ("file", DataBlob(files[k])));
    AllTruthyKept(pairs);
  }

  /** What a client sees of a request: every field the builder set. */
  datatype MultipartRequest = MultipartRequest(
    baseUrl: string,
    httpMethod: string,
    path: string,
    headersValue: map<string, string>,
    formData: seq<FormEntry>,
    optionValues: MultipartHttpOptions)

  class MultipartHttpRequest<T> {
    const multipartHttpClient: MultipartRequest -> T
    const baseUrl: string
    const httpMethod: string
    const path: string
    var headersValue: map<string, string>
    var formData: seq<FormEntry>
    const optionValues: MultipartHttpOptions

    /** The request as its client sees it when `execute` runs. */
    function Content(): (r: MultipartRequest)
      reads this
      ensures r.headersValue == headersValue && r.formData == formData
    {
      MultipartRequest(baseUrl, httpMethod, path, headersValue, formData, optionValues)
    }

    constructor(multipartHttpClient: MultipartRequest -> T, baseUrl: string, httpMethod: string, path: string,
                options: Option<PartialOptions>)
      ensures this.multipartHttpClient == multipartHttpClient
      ensures this.baseUrl == baseUrl && this.httpMethod == httpMethod && this.path == path
      ensures headersValue == map[] && formData == []
      ensures optionValues == OptionValues(options)
    {
      this.multipartHttpClient := multipartHttpClient;
      this.baseUrl := baseUrl;
      this.httpMethod := httpMethod;
      this.path := path;
      headersValue := map[];
      formData := [];
      optionValues := OptionValues(options);
    }

    /** `Object.assign(headersValue, headers)`: the given keys are set, later ones winning; the rest is kept. */
    method Headers(headers: map<string, string>) returns (self: MultipartHttpRequest<T>)
      modifies this
      ensures self == this
      ensures headersValue == old(headersValue) + headers
      ensures forall k :: k in headers ==> headersValue[k] == headers[k]
      ensures forall k :: k in old(headersValue) && k !in headers ==> headersValue[k] == old(headersValue)[k]
      ensures formData == old(formData)
    {
      headersValue := headersValue + headers;
      self := this;
    }

    /** `data(entries)`: appends the truthy entries, in order. */
    method Data(entries: seq<(string, DataValue)>) returns (self: MultipartHttpRequest<T>)
      modifies this
      ensures self == this
      ensures formData == old(formData) + TruthyEntries(entries)
      ensures headersValue == old(headersValue)
    {
      var i := 0;
      while i < |entries|
        invariant 0 <= i <= |entries|
        invariant formData == old(formData) + TruthyEntries(entries[..i])
        invariant headersValue == old(headersValue)
      {
        assert entries[..i + 1][..i] == entries[..i];
        var (name, value) := entries[i];
        if Truthy(value) {
          formData := formData + [EntryOf(name, value)];
        }
        i := i + 1;
      }
      assert entries[..i] == entries;
      self := this;
    }

    /** `file(file)`: appends one entry named `file`. */
    method File(file: Blob) returns (self: MultipartHttpRequest<T>)
      modifies this
      ensures self == this
      ensures formData == old(formData) + [FormEntry("file", FormBlob(file))]
      ensures headersValue == old(headersValue)
    {
      self := Data([("file", DataBlob(file))]);
      assert [("file", DataBlob(file))][..0] == [];
    }

    /** `files(files)`: appends one `file` entry per file, in order. */
    method Files(files: seq<Blob>) returns (self: MultipartHttpRequest<T>)
      modifies this
      ensures self == this
      ensures formData == old(formData) + FileEntries(files)
      ensures headersValue == old(headersValue)
    {
      var i := 0;
      while i < |files|
        invariant 0 <= i <= |files|
        invariant formData == old(formData) + FileEntries(files[..i])
        invariant headersValue == old(headersValue)
      {
        self := File(files[i]);
        assert FileEntries(files[..i + 1]) == FileEntries(files[..i]) + [FormEntry("file", FormBlob(files[i]))];
        i := i + 1;
      }
      assert files[..i] == files;
      self := this;
    }

    /** `execute()`: the client's result on this request. */
    method Execute() returns (r: T)
      ensures r == multipartHttpClient(Content())
    {
      r := multipartHttpClient(Content());
    }
  }

  /**
   * A request built with some headers and data: the client receives exactly
   * those headers and the truthy entries, in order.
   */
  method BuildAndExecute<T>(client: MultipartRequest -> T, baseUrl: string, path: string,
      headers: map<string, string>, entries: seq<(string, DataValue)>) returns (r: T)
    ensures r == client(MultipartRequest(baseUrl, "POST", path, headers, TruthyEntries(entries), OptionValues(None)))
  {
    var request := new MultipartHttpRequest(client, baseUrl, "POST", path, None);
    var same := request.Headers(headers);
    same := request.Data(entries);
    assert request.headersValue == headers by {
      assert map[] + headers == headers;
    }
    assert request.formData == TruthyEntries(entries) by {
      assert [] + TruthyEntries(entries) == TruthyEntries(entries);
    }
    r := request.Execute();
  }
}
