/**
 * The parts of the Fetch API the library reads: a `Response` with its status,
 * headers and body readers, parsed JSON values, the values a successful
 * outcome can carry, and the `Blob`/`FormData` entries of multipart bodies.
 */
module FetchApi {
  import opened Js

  type byte = bv8

  /**
   * A parsed JSON value, as far as the library inspects it: `null`, an object
   * (its `errorCode` and `statusArguments` members, plus the rest of its
   * members rendered as text), or any other value (string, number, boolean,
   * array).
   */
  datatype Json =
    | JsonNull
    | JsonObject(errorCode: Option<string>, statusArguments: Option<seq<string>>,
                 otherFields: map<string, string>)
    | JsonOther(text: string)

  /**
   * The three ways of reading a body. Each is `None` when that read rejects:
   * a body that is not valid JSON, or a stream that fails.
   */
  datatype Body = Body(json: Option<Json>, text: Option<string>, arrayBuffer: Option<seq<byte>>)

  /** A header list: (name, value) pairs in the order they were appended. */
  type HeaderList = seq<(string, string)>

  datatype Response = Response(status: int, statusText: string, headers: HeaderList, body: Body)
  {
    /** `response.ok`: the status is in the 2xx (successful) class of section 15.3 of RFC 9110. */
    predicate Ok()
    {
      200 <= status <= 299
    }
  }

  /** The values of all pairs named `name`, in list order. */
  function ValuesOf(headers: HeaderList, name: string): (r: seq<string>)
    ensures |r| <= |headers|
    ensures r == [] <==> forall i :: 0 <= i < |headers| ==> headers[i].0 != name
  {
    if headers == [] then []
    else (if headers[0].0 == name then [headers[0].1] else []) + ValuesOf(headers[1..], name)
  }

  /** The values joined with ", ", as `Headers` combines repeated headers. */
  function CombineValues(values: seq<string>): string
    requires values != []
  {
    if |values| == 1 then values[0] else values[0] + ", " + CombineValues(values[1..])
  }

  /** `headers.get(name)`: `null` when no pair has that name, else the combined values. */
  function HeaderGet(headers: HeaderList, name: string): (r: Option<string>)
    ensures r.None? <==> forall i :: 0 <= i < |headers| ==> headers[i].0 != name
  {
    var values := ValuesOf(headers, name);
    if values == [] then None else Some(CombineValues(values))
  }

  /** A header list holding `name` exactly once, with that value, is read back unchanged. */
  lemma {:induction false} HeaderGetSingle(headers: HeaderList, i: nat)
    requires i < |headers|
    requires forall j :: 0 <= j < |headers| && j != i ==> headers[j].0 != headers[i].0
    ensures HeaderGet(headers, headers[i].0) == Some(headers[i].1)
  {
    ValuesOfSingle(headers, i);
  }

  lemma {:induction false} ValuesOfSingle(headers: HeaderList, i: nat)
    requires i < |headers|
    requires forall j :: 0 <= j < |headers| && j != i ==> headers[j].0 != headers[i].0
    ensures ValuesOf(headers, headers[i].0) == [headers[i].1]
    decreases |headers|
  {
    var name := headers[i].0;
    if i == 0 {
      assert forall j :: 0 <= j < |headers[1..]| ==> headers[1..][j].0 != name by {
        forall j | 0 <= j < |headers[1..]| ensures headers[1..][j].0 != name {
          assert headers[1..][j] == headers[j + 1];
        }
      }
      assert ValuesOf(headers[1..], name) == [];
    } else {
      assert headers[1..][i - 1] == headers[i];
      forall j | 0 <= j < |headers[1..]| && j != i - 1 ensures headers[1..][j].0 != name {
        assert headers[1..][j] == headers[j + 1];
      }
      ValuesOfSingle(headers[1..], i - 1);
    }
  }

  /** `response.json()`, settled: the parsed value, or a SyntaxError rejection. */
  function ReadJson(r: Response): (s: Settled<Json>)
    ensures s.Fulfilled? <==> r.body.json.Some?
    ensures s.Fulfilled? ==> s.value == r.body.json.value
  {
    match r.body.json
    case Some(j) => Fulfilled(j)
    case None => Rejected(NewError("SyntaxError", "Unexpected token in JSON"))
  }

  /** `response.text()`, settled: the text, or a TypeError rejection. */
  function ReadText(r: Response): (s: Settled<string>)
    ensures s.Fulfilled? <==> r.body.text.Some?
    ensures s.Fulfilled? ==> s.value == r.body.text.value
  {
    match r.body.text
    case Some(t) => Fulfilled(t)
    case None => Rejected(NewError("TypeError", "Failed to read body"))
  }

  /** `response.arrayBuffer()`, settled: the bytes, or a TypeError rejection. */
  function ReadArrayBuffer(r: Response): (s: Settled<seq<byte>>)
    ensures s.Fulfilled? <==> r.body.arrayBuffer.Some?
    ensures s.Fulfilled? ==> s.value == r.body.arrayBuffer.value
  {
    match r.body.arrayBuffer
    case Some(b) => Fulfilled(b)
    case None => Rejected(NewError("TypeError", "Failed to read body"))
  }

  /**
   * The values a successful outcome carries: `undefined`, text, bytes, parsed
   * JSON (`Parsed(JsonNull)` is JavaScript `null`) or the raw `Response`.
   */
  datatype Value =
    | Undefined
    | Text(text: string)
    | Bytes(bytes: seq<byte>)
    | Parsed(json: Json)
    | Raw(response: Response)

  /** JavaScript `null`. */
  const Null: Value := Parsed(JsonNull)

  /** A `Blob` (or `File`): its bytes and its media type (`""` when unknown). */
  datatype Blob = Blob(bytes: seq<byte>, mediaType: string)

  /** A value appended to a `FormData`. */
  datatype FormDataValue = FormText(text: string) | FormBlob(blob: Blob)

  /** One `FormData` entry: a field name and its value. */
  datatype FormEntry = FormEntry(name: string, value: FormDataValue)
}
