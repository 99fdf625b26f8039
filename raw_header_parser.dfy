/**
 * `parseHeadersFromRawString`: turns the raw header block of
 * `XMLHttpRequest.getAllResponseHeaders()` (one `name: value` line per
 * header, lines separated by CRLF, as the WHATWG XMLHttpRequest standard
 * lays it out) into a header list.
 */
module RawHeaderParser {
  import opened Js
  import opened FetchApi

  predicate IsLineBreak(c: char)
  {
    c == '\r' || c == '\n'
  }

  ghost predicate NoBreaks(s: string)
  {
    forall k :: 0 <= k < |s| ==> !IsLineBreak(s[k])
  }

  /** The index of the first line break at or after `from`, or `|s|` when there is none. */
  function LineEnd(s: string, from: nat): (i: nat)
    requires from <= |s|
    ensures from <= i <= |s|
    ensures forall k :: from <= k < i ==> !IsLineBreak(s[k])
    ensures i < |s| ==> IsLineBreak(s[i])
    decreases |s| - from
  {
    if from == |s| || IsLineBreak(s[from]) then from else LineEnd(s, from + 1)
  }

  /** The index just past the run of line breaks that starts at `from`. */
  function SkipBreaks(s: string, from: nat): (j: nat)
    requires from <= |s|
    ensures from <= j <= |s|
    ensures forall k :: from <= k < j ==> IsLineBreak(s[k])
    ensures j < |s| ==> !IsLineBreak(s[j])
    decreases |s| - from
  {
    if from < |s| && IsLineBreak(s[from]) then SkipBreaks(s, from + 1) else from
  }

  /**
   * `s.split(/[\r\n]+/)`: the pieces of `s` between maximal runs of CR and LF
   * characters; a string without line breaks is a single piece.
   */
  function SplitLines(s: string): (lines: seq<string>)
    ensures |lines| >= 1
    decreases |s|
  {
    var i := LineEnd(s, 0);
    if i == |s| then [s]
    else [s[..i]] + SplitLines(s[SkipBreaks(s, i)..])
  }

  /** Every piece of a split is free of line breaks. */
  lemma {:induction false} SplitLinesNoBreaks(s: string)
    ensures forall k :: 0 <= k < |SplitLines(s)| ==> NoBreaks(SplitLines(s)[k])
    decreases |s|
  {
    var i := LineEnd(s, 0);
    if i < |s| {
      var rest := s[SkipBreaks(s, i)..];
      SplitLinesNoBreaks(rest);
      forall k | 0 <= k < |SplitLines(s)| ensures NoBreaks(SplitLines(s)[k]) {
        if k > 0 {
          assert SplitLines(s)[k] == SplitLines(rest)[k - 1];
        }
      }
    }
  }

  /** A string without line breaks splits into itself. */
  lemma SplitSingleLine(x: string)
    requires NoBreaks(x)
    ensures SplitLines(x) == [x]
  {
  }

  /**
   * A run of CR/LF characters separates exactly two pieces: however long the
   * run, it produces no empty piece.
   */
  lemma SplitAtRun(x: string, run: string, y: string)
    requires NoBreaks(x) && run != [] && forall k :: 0 <= k < |run| ==> IsLineBreak(run[k])
    requires y == [] || !IsLineBreak(y[0])
    ensures SplitLines(x + run + y) == [x] + SplitLines(y)
  {
    var s := x + run + y;
    assert LineEnd(s, 0) == |x| by {
      LineEndPrefix(s, x);
      assert s[|x|] == run[0];
    }
    assert SkipBreaks(s, |x|) == |x| + |run| by {
      SkipBreaksRun(s, |x|, |x| + |run|);
    }
    assert s[..|x|] == x;
    assert s[|x| + |run|..] == y;
  }

  lemma {:induction false} LineEndPrefix(s: string, x: string)
    requires NoBreaks(x) && |x| <= |s| && s[..|x|] == x
    ensures LineEnd(s, 0) >= |x|
  {
    forall k | 0 <= k < |x| ensures !IsLineBreak(s[k]) {
      assert s[k] == x[k];
    }
  }

  lemma {:induction false} SkipBreaksRun(s: string, from: nat, to: nat)
    requires from <= to <= |s|
    requires forall k :: from <= k < to ==> IsLineBreak(s[k])
    requires to == |s| || !IsLineBreak(s[to])
    ensures SkipBreaks(s, from) == to
    decreases |s| - from
  {
    if from < to {
      SkipBreaksRun(s, from + 1, to);
    }
  }

  /** The index of the first `:` of `line`, or `|line|` when it has none. */
  function FirstColon(line: string): (i: nat)
    ensures i <= |line| && ':' !in line[..i]
    ensures i < |line| ==> line[i] == ':'
  {
    if line == [] then 0
    else if line[0] == ':' then 0
    else
      var i := 1 + FirstColon(line[1..]);
      assert line[..i] == [line[0]] + line[1..][..i - 1];
      i
  }

  /** `line.indexOf(':')` is the first colon, and -1 when there is none. */
  lemma ColonIndexOf(line: string)
    ensures IndexOf(line, ":") == if FirstColon(line) == |line| then -1 else FirstColon(line)
  {
    var i := FirstColon(line);
    if i == |line| {
      assert line[..i] == line;
      IndexOfAbsentChar(line, ':');
    } else {
      IndexOfChar(line, ':', i);
    }
  }

  /**
   * One line: split at its first `:` (`line.indexOf(':')`, see `ColonIndexOf`);
   * the name is the text before it and the value the trimmed text after it
   * (empty when the colon ends the line). A line whose first colon is missing
   * or at index 0 or 1 is dropped.
   */
  function ParseLine(line: string): Option<(string, string)>
  {
    var separator := FirstColon(line);
    if 1 < separator < |line| then
      var valueStart := separator + 1;
      Some((line[..separator], if valueStart == |line| then "" else Trim(line[valueStart..])))
    else
      None
  }

  /**
   * The decision on a line whose first colon is at index `k`: kept, with the
   * name before the colon and the trimmed rest as value, exactly when `k > 1`.
   */
  lemma ParseLineAt(line: string, k: nat)
    requires k < |line| && line[k] == ':' && ':' !in line[..k]
    ensures k > 1 ==> ParseLine(line) == Some((line[..k], Trim(line[k + 1..])))
    ensures k <= 1 ==> ParseLine(line) == None
  {
    assert line[..k] == line[..k];
    if k + 1 == |line| {
      assert line[k + 1..] == [];
    }
  }

  /** A line without a colon is dropped. */
  lemma ParseLineNoColon(line: string)
    requires ':' !in line
    ensures ParseLine(line) == None
  {
    assert line[..FirstColon(line)] == line;
  }

  /**
   * The value is everything after the first colon, so later colons stay in it
   * (a value such as `21:04:30` is kept whole).
   */
  lemma ValueKeepsColons(name: string, value: string)
    requires |name| > 1 && ':' !in name
    ensures ParseLine(name + ":" + value) == Some((name, Trim(value)))
  {
    var line := name + ":" + value;
    assert line[..|name|] == name;
    assert line[|name| + 1..] == value;
    ParseLineAt(line, |name|);
  }

  /** A space after the colon, or none, parses the same. */
  lemma SpaceAfterColon(name: string, value: string)
    requires ':' !in name
    ensures ParseLine(name + ": " + value) == ParseLine(name + ":" + value)
  {
    assert name + ": " + value == name + ":" + (" " + value);
    var line1 := name + ":" + (" " + value);
    var line2 := name + ":" + value;
    assert line1[..|name|] == name && line1[|name| + 1..] == " " + value;
    assert line2[..|name|] == name && line2[|name| + 1..] == value;
    ParseLineAt(line1, |name|);
    ParseLineAt(line2, |name|);
    TrimLeadingSpace(value);
  }

  /** A colon as the last character gives an empty value. */
  lemma TrailingColon(name: string)
    requires |name| > 1 && ':' !in name
    ensures ParseLine(name + ":") == Some((name, ""))
  {
    ValueKeepsColons(name, "");
    assert name + ":" + "" == name + ":";
  }

  /** The headers `parse` finds in a list of lines, appended in line order. */
  function Collect(parse: string -> Option<(string, string)>, lines: seq<string>): (headers: HeaderList)
    ensures |headers| <= |lines|
  {
    if lines == [] then []
    else
      var last := lines[|lines| - 1];
      Collect(parse, lines[..|lines| - 1]) + (match parse(last) case Some(h) => [h] case None => [])
  }

  /** When `parse` finds a header on every line, those headers are collected, in order. */
  lemma {:induction false} CollectAll(parse: string -> Option<(string, string)>, lines: seq<string>, headers: HeaderList)
    requires |lines| == |headers|
    requires forall k :: 0 <= k < |lines| ==> parse(lines[k]) == Some(headers[k])
    ensures Collect(parse, lines) == headers
    decreases |lines|
  {
    if lines != [] {
      var n := |lines| - 1;
      forall k | 0 <= k < n ensures parse(lines[..n][k]) == Some(headers[..n][k]) {
        assert lines[..n][k] == lines[k] && headers[..n][k] == headers[k];
      }
      CollectAll(parse, lines[..n], headers[..n]);
      assert headers == headers[..n] + [headers[n]];
    }
  }

  /** The headers of a list of lines, appended in line order. */
  function HeadersOf(lines: seq<string>): (headers: HeaderList)
    ensures |headers| <= |lines|
  {
    Collect(ParseLine, lines)
  }

  /** The headers of consecutive groups of lines follow each other. */
  lemma {:induction false} HeadersOfAppend(a: seq<string>, b: seq<string>)
    ensures HeadersOf(a + b) == HeadersOf(a) + HeadersOf(b)
    decreases |b|
  {
    if b == [] {
      assert a + b == a;
    } else {
      var b' := b[..|b| - 1];
      assert (a + b)[..|a + b| - 1] == a + b';
      assert (a + b)[|a + b| - 1] == b[|b| - 1];
      HeadersOfAppend(a, b');
    }
  }

  /** The header list `parseHeadersFromRawString(rawHeaders)` builds. */
  function ParsedHeaders(rawHeaders: string): HeaderList
  {
    HeadersOf(SplitLines(Trim(rawHeaders)))
  }

  /** `parseHeadersFromRawString(rawHeaders)`: each line of the trimmed, split input appends its header. */
  method ParseHeadersFromRawString(rawHeaders: string) returns (headers: HeaderList)
    ensures headers == ParsedHeaders(rawHeaders)
  {
    var lines := SplitLines(Trim(rawHeaders));
    headers := [];
    var i := 0;
    while i < |lines|
      invariant 0 <= i <= |lines|
      invariant headers == HeadersOf(lines[..i])
    {
      var parsed := ParseLine(lines[i]);
      assert lines[..i + 1][..i] == lines[..i];
      if parsed.Some? {
        headers := headers + [parsed.value];
      }
      i := i + 1;
    }
    assert lines[..i] == lines;
  }

  /** An empty input yields no headers. */
  lemma EmptyInput()
    ensures ParsedHeaders("") == []
  {
    assert SplitLines("") == [""];
    ParseLineNoColon("");
  }

  /** Whitespace around the whole input yields no extra header. */
  lemma SurroundingWhitespace(w1: string, rawHeaders: string, w2: string)
    requires AllWhitespace(w1) && AllWhitespace(w2)
    ensures ParsedHeaders(w1 + rawHeaders + w2) == ParsedHeaders(rawHeaders)
  {
    TrimSurrounded(w1, rawHeaders, w2);
  }

  // ---------------------------------------------------------------------------
  // Round trip with the getAllResponseHeaders() layout

  ghost predicate NoWhitespace(s: string)
  {
    forall k :: 0 <= k < |s| ==> !IsWhitespace(s[k])
  }

  /** A `tchar` of section 5.6.2 of RFC 9110: the characters a header name (a `token`) is made of. */
  predicate IsTokenChar(c: char)
  {
    || ('a' <= c <= 'z') || ('A' <= c <= 'Z') || ('0' <= c <= '9')
    || c == '!' || c == '#' || c == '$' || c == '%' || c == '&' || c == '\'' || c == '*'
    || c == '+' || c == '-' || c == '.' || c == '^' || c == '_' || c == '`' || c == '|' || c == '~'
  }

  /** `s` is a `token`: the only names `Headers.append` accepts. */
  ghost predicate IsToken(s: string)
  {
    forall k :: 0 <= k < |s| ==> IsTokenChar(s[k])
  }

  /**
   * A header as a server can send it and `Headers.append` accepts it: a token
   * name of at least two characters, and a value without line breaks, NUL nor
   * surrounding whitespace.
   */
  ghost predicate WellFormed(h: (string, string))
  {
    |h.0| > 1 && IsToken(h.0) && NoBreaks(h.1) && '\0' !in h.1 && Trim(h.1) == h.1
  }

  function HeaderLine(h: (string, string)): string
  {
    h.0 + ": " + h.1
  }

  /** The lines joined with CRLF. */
  function JoinCrlf(lines: seq<string>): string
    requires |lines| >= 1
  {
    if |lines| == 1 then lines[0] else lines[0] + "\r\n" + JoinCrlf(lines[1..])
  }

  /** The raw block `getAllResponseHeaders()` returns for a header list: each line ends with CRLF. */
  function RawBlock(headers: HeaderList): string
  {
    if headers == [] then "" else HeaderLine(headers[0]) + "\r\n" + RawBlock(headers[1..])
  }

  /** The lines of a header list, the last one with its trailing whitespace removed. */
  function TrimmedLines(headers: HeaderList): (lines: seq<string>)
    requires headers != []
    ensures |lines| == |headers|
  {
    if |headers| == 1 then [TrimEnd(HeaderLine(headers[0]))]
    else [HeaderLine(headers[0])] + TrimmedLines(headers[1..])
  }

  /** A line the split keeps whole: non-empty, without line breaks, not starting with whitespace. */
  ghost predicate GoodLine(l: string)
  {
    l != [] && NoBreaks(l) && !IsWhitespace(l[0])
  }

  /** Trimming the end of a header line only removes the space of an empty value. */
  lemma HeaderLineTrimEnd(h: (string, string))
    requires WellFormed(h)
    ensures TrimEnd(HeaderLine(h)) == if h.1 == [] then h.0 + ":" else HeaderLine(h)
  {
    var (name, value) := h;
    assert !IsWhitespace(name[|name| - 1]);
    if value == [] {
      assert HeaderLine(h) == (name + ":") + " ";
      assert AllWhitespace(" ");
      TrimEndSuffix(name + ":", " ");
    } else {
      assert HeaderLine(h)[|HeaderLine(h)| - 1] == value[|value| - 1];
    }
  }

  /** A well-formed header line parses back to its header, also with its trailing whitespace trimmed. */
  lemma HeaderLineParses(h: (string, string))
    requires WellFormed(h)
    ensures ParseLine(HeaderLine(h)) == Some(h)
    ensures ParseLine(TrimEnd(HeaderLine(h))) == Some(h)
  {
    var (name, value) := h;
    SpaceAfterColon(name, value);
    ValueKeepsColons(name, value);
    HeaderLineTrimEnd(h);
    if value == [] {
      TrailingColon(name);
    }
  }

  lemma {:induction false} NoBreaksConcat(a: string, b: string)
    requires NoBreaks(a) && NoBreaks(b)
    ensures NoBreaks(a + b)
  {
    forall k | 0 <= k < |a + b| ensures !IsLineBreak((a + b)[k]) {
      if k < |a| {
        assert (a + b)[k] == a[k];
      } else {
        assert (a + b)[k] == b[k - |a|];
      }
    }
  }

  lemma {:induction false} NoWhitespaceNoBreaks(s: string)
    requires NoWhitespace(s)
    ensures NoBreaks(s)
  {
    forall k | 0 <= k < |s| ensures !IsLineBreak(s[k]) {
      assert !IsWhitespace(s[k]);
    }
  }

  /** A well-formed header line, trimmed at the end or not, is kept whole by the split. */
  lemma HeaderLineShape(h: (string, string))
    requires WellFormed(h)
    ensures GoodLine(HeaderLine(h)) && GoodLine(TrimEnd(HeaderLine(h)))
  {
    var (name, value) := h;
    NoWhitespaceNoBreaks(name);
    assert NoBreaks(":");
    assert NoBreaks(": ");
    NoBreaksConcat(name, ":");
    NoBreaksConcat(name, ": ");
    NoBreaksConcat(name + ": ", value);
    assert (name + ": " + value)[0] == name[0];
    assert (name + ":")[0] == name[0];
    HeaderLineTrimEnd(h);
  }

  /** Line `k` of the list is the header line of header `k`, trimmed at the end for the last one. */
  lemma {:induction false} TrimmedLinesAt(headers: HeaderList, k: nat)
    requires k < |headers|
    ensures TrimmedLines(headers)[k] ==
      if k == |headers| - 1 then TrimEnd(HeaderLine(headers[k])) else HeaderLine(headers[k])
    decreases k
  {
    if k > 0 {
      var rest := headers[1..];
      assert TrimmedLines(headers) == [HeaderLine(headers[0])] + TrimmedLines(rest);
      TrimmedLinesAt(rest, k - 1);
      assert rest[k - 1] == headers[k];
    }
  }

  /** Every line of a well-formed list is non-empty, has no line break and starts without whitespace. */
  lemma TrimmedLinesGood(headers: HeaderList)
    requires headers != [] && forall k :: 0 <= k < |headers| ==> WellFormed(headers[k])
    ensures forall k :: 0 <= k < |headers| ==> GoodLine(TrimmedLines(headers)[k])
  {
    forall k | 0 <= k < |headers| ensures GoodLine(TrimmedLines(headers)[k]) {
      TrimmedLinesAt(headers, k);
      HeaderLineShape(headers[k]);
    }
  }

  /** Every line of a well-formed list parses back to its header. */
  lemma TrimmedLinesParse(headers: HeaderList)
    requires headers != [] && forall k :: 0 <= k < |headers| ==> WellFormed(headers[k])
    ensures forall k :: 0 <= k < |headers| ==> ParseLine(TrimmedLines(headers)[k]) == Some(headers[k])
  {
    forall k | 0 <= k < |headers| ensures ParseLine(TrimmedLines(headers)[k]) == Some(headers[k]) {
      TrimmedLinesAt(headers, k);
      HeaderLineParses(headers[k]);
    }
  }

  /** Splitting lines joined with CRLF gives the lines back, when none is empty or holds a break. */
  lemma {:induction false} SplitJoin(lines: seq<string>)
    requires |lines| >= 1
    requires forall k :: 0 <= k < |lines| ==> GoodLine(lines[k])
    ensures SplitLines(JoinCrlf(lines)) == lines
    decreases |lines|
  {
    if |lines| == 1 {
      SplitSingleLine(lines[0]);
    } else {
      var rest := lines[1..];
      assert rest[0] == lines[1];
      forall k | 0 <= k < |rest| ensures GoodLine(rest[k]) {
        assert rest[k] == lines[k + 1];
      }
      SplitJoin(rest);
      var y := JoinCrlf(rest);
      assert y[0] == rest[0][0] by {
        JoinCrlfStart(rest);
      }
      assert forall k :: 0 <= k < |"\r\n"| ==> IsLineBreak("\r\n"[k]);
      SplitAtRun(lines[0], "\r\n", y);
    }
  }

  lemma {:induction false} JoinCrlfStart(lines: seq<string>)
    requires |lines| >= 1 && lines[0] != []
    ensures |JoinCrlf(lines)| >= |lines[0]| && JoinCrlf(lines)[..|lines[0]|] == lines[0]
  {
    if |lines| > 1 {
      assert JoinCrlf(lines) == lines[0] + ("\r\n" + JoinCrlf(lines[1..]));
    }
  }

  /**
   * Trimming the raw block removes its final CRLF and the trailing whitespace
   * of its last line; nothing else.
   */
  lemma {:induction false} TrimRawBlock(headers: HeaderList)
    requires headers != [] && forall k :: 0 <= k < |headers| ==> WellFormed(headers[k])
    ensures Trim(RawBlock(headers)) == JoinCrlf(TrimmedLines(headers))
  {
    forall k | 0 <= k < |headers| ensures CleanStart(headers[k]) {
      WellFormedCleanStart(headers[k]);
    }
    var h := headers[0];
    assert !IsWhitespace(RawBlock(headers)[0]) by {
      assert CleanStart(h);
      assert RawBlock(headers)[0] == h.0[0];
    }
    assert TrimStart(RawBlock(headers)) == RawBlock(headers);
    TrimEndRawBlock(headers);
  }

  /** The header's name is not empty and does not start with whitespace. */
  ghost predicate CleanStart(h: (string, string))
  {
    h.0 != [] && !IsWhitespace(h.0[0])
  }

  lemma WellFormedCleanStart(h: (string, string))
    requires WellFormed(h)
    ensures CleanStart(h)
  {
    assert IsTokenChar(h.0[0]);
  }

  lemma {:induction false} TrimEndRawBlock(headers: HeaderList)
    requires headers != [] && forall k :: 0 <= k < |headers| ==> CleanStart(headers[k])
    ensures TrimEnd(RawBlock(headers)) == JoinCrlf(TrimmedLines(headers))
    decreases |headers|
  {
    var h := headers[0];
    var rest := headers[1..];
    assert AllWhitespace("\r\n");
    if |headers| == 1 {
      assert RawBlock(rest) == "";
      assert RawBlock(headers) == HeaderLine(h) + "\r\n";
      TrimEndSuffix(HeaderLine(h), "\r\n");
    } else {
      forall k | 0 <= k < |rest| ensures CleanStart(rest[k]) {
        assert rest[k] == headers[k + 1];
      }
      TrimEndRawBlock(rest);
      assert CleanStart(rest[0]);
      assert !AllWhitespace(RawBlock(rest)) by {
        assert RawBlock(rest)[0] == rest[0].0[0];
      }
      assert RawBlock(headers) == (HeaderLine(h) + "\r\n") + RawBlock(rest);
      TrimEndPrepend(HeaderLine(h) + "\r\n", RawBlock(rest));
      assert TrimmedLines(headers) == [HeaderLine(h)] + TrimmedLines(rest);
    }
  }

  /**
   * Round trip: the raw block of a list of well-formed headers parses back to
   * that list, in order.
   */
  lemma ParseRawBlock(headers: HeaderList)
    requires forall k :: 0 <= k < |headers| ==> WellFormed(headers[k])
    ensures ParsedHeaders(RawBlock(headers)) == headers
  {
    if headers == [] {
      EmptyInput();
    } else {
      SplitRawBlock(headers);
      TrimmedLinesParse(headers);
      HeadersOfParsed(TrimmedLines(headers), headers);
    }
  }

  /** The trimmed raw block splits into the header lines, the last one trimmed at the end. */
  lemma SplitRawBlock(headers: HeaderList)
    requires headers != [] && forall k :: 0 <= k < |headers| ==> WellFormed(headers[k])
    ensures SplitLines(Trim(RawBlock(headers))) == TrimmedLines(headers)
  {
    TrimmedLinesGood(headers);
    SplitJoin(TrimmedLines(headers));
    TrimRawBlock(headers);
  }

  /** A single well-formed header line with its final CRLF parses to that header. */
  lemma SingleLineCrlf(h: (string, string))
    requires WellFormed(h)
    ensures ParsedHeaders(HeaderLine(h) + "\r\n") == [h]
  {
    SingleRawBlock(h);
    RawBlockSingle(h);
  }

  lemma SingleRawBlock(h: (string, string))
    requires WellFormed(h)
    ensures ParsedHeaders(RawBlock([h])) == [h]
  {
    assert forall k :: 0 <= k < |[h]| ==> WellFormed([h][k]);
    ParseRawBlock([h]);
  }

  lemma RawBlockSingle(h: (string, string))
    ensures RawBlock([h]) == HeaderLine(h) + "\r\n"
  {
    assert [h][1..] == [];
  }

  /** A single well-formed header line parses to that header, with or without a final CRLF. */
  lemma SingleLine(h: (string, string))
    requires WellFormed(h)
    ensures ParsedHeaders(HeaderLine(h)) == [h]
    ensures ParsedHeaders(HeaderLine(h) + "\r\n") == [h]
  {
    SingleLineCrlf(h);
    TrailingCrlf(HeaderLine(h));
  }

  /** A final CRLF changes nothing to what a block parses to. */
  lemma TrailingCrlf(rawHeaders: string)
    ensures ParsedHeaders(rawHeaders + "\r\n") == ParsedHeaders(rawHeaders)
  {
    assert AllWhitespace("\r\n") by {
      assert IsWhitespace("\r\n"[0]) && IsWhitespace("\r\n"[1]);
    }
    assert "" + rawHeaders + "\r\n" == rawHeaders + "\r\n";
    SurroundingWhitespace("", rawHeaders, "\r\n");
  }

  lemma HeadersOfParsed(lines: seq<string>, headers: HeaderList)
    requires |lines| == |headers|
    requires forall k :: 0 <= k < |lines| ==> ParseLine(lines[k]) == Some(headers[k])
    ensures HeadersOf(lines) == headers
  {
    CollectAll(ParseLine, lines, headers);
  }
}
