/**
 * The older `MultipartHttpRequest` of `src/lib/client`: a builder whose
 * options are a timeout, an `AbortController` that the executor's cancel
 * aborts, a progress callback and the multipart boundary, which defaults to
 * `boundary-` followed by the current time in milliseconds.
 */
module LegacyMultipartHttpRequests {
  import opened Js
  import opened FetchApi
  import opened MultipartHttpRequests

  /** The reason `abort()` gives its signal when called without one: a DOMException named `AbortError`. */
  const AbortErrorReason: Thrown := NewError("AbortError", "signal is aborted without reason")

  /** An `AbortController` and the state of its signal. */
  class AbortController {
    var aborted: bool
    var reason: Thrown

    constructor()
      ensures !aborted && reason == Nullish
    {
      aborted := false;
      reason := Nullish;
    }

    /**
     * `abort(reason)`: the first call aborts the signal with the given reason,
     * or with an `AbortError` when none is given; later calls change nothing.
     */
    method Abort(givenReason: Option<Thrown>)
      modifies this
      ensures aborted
      ensures old(aborted) ==> reason == old(reason)
      ensures !old(aborted) ==> reason == Coalesce(givenReason, AbortErrorReason)
    {
      if !aborted {
        aborted := true;
        reason := Coalesce(givenReason, AbortErrorReason);
      }
    }
  }

  datatype LegacyOptions = LegacyOptions(
    timeoutInMillis: int,
    timeoutAbortController: AbortController,
    onProgressCallback: ProgressCallback,
    boundary: string)

  /** `Partial<MultipartHttpOptions>`: each option is `None` when `null` or `undefined`. */
  datatype PartialLegacyOptions = PartialLegacyOptions(
    timeoutInMillis: Option<int>,
    timeoutAbortController: Option<AbortController>,
    onProgressCallback: Option<ProgressCallback>,
    boundary: Option<string>)

  /** The decimal digit for `d`. */
  function DigitChar(d: nat): (c: char)
    requires d < 10
    ensures '0' <= c <= '9' && c as int - '0' as int == d
  {
    (d + '0' as int) as char
  }

  predicate IsDigits(s: string)
  {
    forall k :: 0 <= k < |s| ==> '0' <= s[k] <= '9'
  }

  /** `${n}` for a non-negative integer: its decimal digits, without leading zeros. */
  function DecimalString(n: nat): (s: string)
    ensures 1 <= |s| && IsDigits(s)
    ensures |s| > 1 ==> s[0] != '0'
    decreases n
  {
    if n < 10 then [DigitChar(n)] else DecimalString(n / 10) + [DigitChar(n % 10)]
  }

  /** The number a string of decimal digits denotes. */
  function DecimalValue(s: string): nat
    requires IsDigits(s)
  {
    if s == [] then 0
    else DecimalValue(s[..|s| - 1]) * 10 + (s[|s| - 1] as int - '0' as int)
  }

  /** Reading back the decimal digits of a number gives that number. */
  lemma {:induction false} DecimalRoundTrip(n: nat)
    ensures DecimalValue(DecimalString(n)) == n
    decreases n
  {
    var s := DecimalString(n);
    if n >= 10 {
      DecimalRoundTrip(n / 10);
      assert s[..|s| - 1] == DecimalString(n / 10);
    }
  }

  /** The default boundary for a request built at time `now`. */
  function DefaultBoundary(now: nat): (b: string)
    ensures |b| > 9 && b[..9] == "boundary-" && IsDigits(b[9..]) && DecimalValue(b[9..]) == now
  {
    DecimalRoundTrip(now);
    assert ("boundary-" + DecimalString(now))[9..] == DecimalString(now);
    "boundary-" + DecimalString(now)
  }

  /** Requests built at different milliseconds get different default boundaries. */
  lemma DefaultBoundariesDiffer(now: nat, other: nat)
    requires now != other
    ensures DefaultBoundary(now) != DefaultBoundary(other)
  {
  }

  /**
   * The option values the constructor computes: each supplied option wins over
   * its default; `defaultController` is the controller it creates when none is
   * supplied, and `now` is `Date.now()`.
   */
  function LegacyOptionValues(options: Option<PartialLegacyOptions>, defaultController: AbortController, now: nat)
    : (r: LegacyOptions)
    ensures options.None? ==> r == LegacyOptions(60000, defaultController, NoOpCallback, DefaultBoundary(now))
    ensures options.Some? ==>
      r.timeoutInMillis == Coalesce(options.value.timeoutInMillis, 60000)
      && r.timeoutAbortController == Coalesce(options.value.timeoutAbortController, defaultController)
      && r.onProgressCallback == Coalesce(options.value.onProgressCallback, NoOpCallback)
      && r.boundary == Coalesce(options.value.boundary, DefaultBoundary(now))
  {
    match options
    case None => LegacyOptions(60000, defaultController, NoOpCallback, DefaultBoundary(now))
    case Some(o) =>
      LegacyOptions(
        Coalesce(o.timeoutInMillis, 60000),
        Coalesce(o.timeoutAbortController, defaultController),
        Coalesce(o.onProgressCallback, NoOpCallback),
        Coalesce(o.boundary, DefaultBoundary(now)))
  }

  /** What a client sees of a request: every field the builder set. */
  datatype LegacyMultipartRequest = LegacyMultipartRequest(
    baseUrl: string,
    path: string,
    headersValue: map<string, string>,
    formData: seq<FormEntry>,
    optionValues: LegacyOptions)

  class LegacyMultipartHttpRequest<T> {
    const multipartHttpClient: LegacyMultipartRequest -> T
    const baseUrl: string
    const path: string
    var headersValue: map<string, string>
    var formData: seq<FormEntry>
    const optionValues: LegacyOptions

    /** The request as its client sees it when `execute` runs. */
    function Content(): (r: LegacyMultipartRequest)
      reads this
      ensures r.headersValue == headersValue && r.formData == formData && r.optionValues == optionValues
    {
      LegacyMultipartRequest(baseUrl, path, headersValue, formData, optionValues)
    }

    /**
     * The constructor, given `Date.now()` as `now`: a new `AbortController` is
     * created only when the caller supplies none.
     */
    constructor(multipartHttpClient: LegacyMultipartRequest -> T, baseUrl: string, path: string,
                options: Option<PartialLegacyOptions>, now: nat)
      ensures this.multipartHttpClient == multipartHttpClient && this.baseUrl == baseUrl && this.path == path
      ensures headersValue == map[] && formData == []
      ensures exists defaultController :: optionValues == LegacyOptionValues(options, defaultController, now)
      ensures options.Some? && options.value.timeoutAbortController.Some? ==>
        optionValues.timeoutAbortController == options.value.timeoutAbortController.value
      ensures !(options.Some? && options.value.timeoutAbortController.Some?) ==>
        fresh(optionValues.timeoutAbortController) && !optionValues.timeoutAbortController.aborted
    {
      var controller: AbortController;
      if options.Some? && options.value.timeoutAbortController.Some? {
        controller := options.value.timeoutAbortController.value;
      } else {
        controller := new AbortController();
      }
      this.multipartHttpClient := multipartHttpClient;
      this.baseUrl := baseUrl;
      this.path := path;
      headersValue := map[];
      formData := [];
      optionValues := LegacyOptionValues(options, controller, now);
    }

    /** `Object.assign(headersValue, headers)`: the given keys are set; the rest is kept. */
    method Headers(headers: map<string, string>) returns (self: LegacyMultipartHttpRequest<T>)
      modifies this
      ensures self == this
      ensures headersValue == old(headersValue) + headers
      ensures forall k :: k in headers ==> headersValue[k] == headers[k]
      ensures forall k :: k in old(headersValue) && k !in headers ==> headersValue[k] == old(headersValue)[k]
      ensures formData == old(formData)
    {
      headersValue := headersValue + headers;
      self := this;
    }

    /** `data(entries)`: appends the truthy entries, in order. */
    method Data(entries: seq<(string, DataValue)>) returns (self: LegacyMultipartHttpRequest<T>)
      modifies this
      ensures self == this
      ensures formData == old(formData) + TruthyEntries(entries)
      ensures headersValue == old(headersValue)
    {
      var i := 0;
      while i < |entries|
        invariant 0 <= i <= |entries|
        invariant formData == old(formData) + TruthyEntries(entries[..i])
        invariant headersValue == old(headersValue)
      {
        assert entries[..i + 1][..i] == entries[..i];
        var (name, value) := entries[i];
        if Truthy(value) {
          formData := formData + [EntryOf(name, value)];
        }
        i := i + 1;
      }
      assert entries[..i] == entries;
      self := this;
    }

    /** `execute()`: the client's result on this request. */
    method Execute() returns (r: T)
      ensures r == multipartHttpClient(Content())
    {
      r := multipartHttpClient(Content());
    }
  }
}
