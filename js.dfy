/**
 * The few JavaScript semantics the library relies on: the values that can be
 * thrown, promises that have settled, the `then`/`catch` chaining of such
 * promises, and the string primitives `indexOf` and `trim`.
 */
module Js {

  datatype Option<+T> = None | Some(value: T)

  /**
   * A value thrown by a function or carried by a rejected promise.
   * `Object` covers every object value other than a function: its `errorCode` and `statusArguments`
   * properties, each `None` when it is `undefined`, and its other properties
   * rendered as text. An `Error` instance has a `name` and a `message` among
   * those other properties and no `errorCode`; an HttpError-shaped object has
   * an `errorCode`.
   */
  datatype Thrown =
    | Nullish                 // `null` or `undefined`: reading a property of it throws
    | Primitive(text: string) // a string, number or boolean: `typeof` is not 'object'
    | Object(errorCode: Option<string>, statusArguments: Option<seq<string>>,
             otherFields: map<string, string>)

  /** `t.name === name`: `t` is an object whose `name` property is `name`. */
  predicate HasName(t: Thrown, name: string)
  {
    t.Object? && "name" in t.otherFields && t.otherFields["name"] == name
  }

  /** `new Error(message)` of the given class name, e.g. `NewError("TypeError", m)`. */
  function NewError(name: string, message: string): (t: Thrown)
    ensures t.Object? && t.errorCode.None? && t.statusArguments.None?
    ensures HasName(t, name) && "message" in t.otherFields && t.otherFields["message"] == message
  {
    Object(None, None, map["name" := name, "message" := message])
  }

  /** The TypeError raised by reading a property of `null` or `undefined`. */
  const PropertyOfNullish: Thrown := NewError("TypeError", "Cannot read properties of null")

  /** A promise that has settled: fulfilled with a value or rejected with a reason. */
  datatype Settled<+T> = Fulfilled(value: T) | Rejected(reason: Thrown)

  /**
   * How a synchronous call ends: it returns a value or it throws.
   * A callback given to `then` or `catch` returns `Returned(s)`, where `s` is the
   * settlement the chain adopts (a plain value `v` is `Fulfilled(v)`; a returned
   * promise or thenable is its own settlement), or throws.
   */
  datatype Completion<+T> = Returned(value: T) | Threw(exception: Thrown)

  /** A callback that returns the plain value of a synchronous call, or throws what it throws. */
  function Lift<T>(c: Completion<T>): (r: Completion<Settled<T>>)
    ensures c.Returned? ==> r == Returned(Fulfilled(c.value))
    ensures c.Threw? ==> r == Threw(c.exception)
  {
    match c
    case Returned(v) => Returned(Fulfilled(v))
    case Threw(e) => Threw(e)
  }

  /** The promise that adopts a call's completion: fulfilled with its value, or rejected with what it threw. */
  function Settle<T>(c: Completion<T>): (p: Settled<T>)
    ensures c.Returned? ==> p == Fulfilled(c.value)
    ensures c.Threw? ==> p == Rejected(c.exception)
  {
    match c
    case Returned(v) => Fulfilled(v)
    case Threw(e) => Rejected(e)
  }

  /** The settlement of `p.then(f)`: `f` runs only on a fulfilled `p`, and a throw in `f` rejects. */
  function Then<T, U>(p: Settled<T>, f: T -> Completion<Settled<U>>): (r: Settled<U>)
    ensures p.Rejected? ==> r == Rejected(p.reason)
    ensures p.Fulfilled? && f(p.value).Threw? ==> r == Rejected(f(p.value).exception)
    ensures p.Fulfilled? && f(p.value).Returned? ==> r == f(p.value).value
  {
    match p
    case Rejected(e) => Rejected(e)
    case Fulfilled(v) =>
      match f(v)
      case Returned(s) => s
      case Threw(e) => Rejected(e)
  }

  /** The settlement of `p.catch(f)`: `f` runs only on a rejected `p`; a fulfilled `p` passes unchanged. */
  function Catch<T>(p: Settled<T>, f: Thrown -> Completion<Settled<T>>): (r: Settled<T>)
    ensures p.Fulfilled? ==> r == p
    ensures p.Rejected? && f(p.reason).Threw? ==> r == Rejected(f(p.reason).exception)
    ensures p.Rejected? && f(p.reason).Returned? ==> r == f(p.reason).value
  {
    match p
    case Fulfilled(v) => Fulfilled(v)
    case Rejected(e) =>
      match f(e)
      case Returned(s) => s
      case Threw(e') => Rejected(e')
  }

  // ---------------------------------------------------------------------------
  // String.prototype.indexOf

  /** `sub` occurs in `s` starting at index `k`. */
  ghost predicate OccursAt(s: string, sub: string, k: int)
  {
    0 <= k && k + |sub| <= |s| && s[k..k + |sub|] == sub
  }

  /** `s` contains `sub` as a substring somewhere. */
  ghost predicate Contains(s: string, sub: string)
  {
    exists k :: OccursAt(s, sub, k)
  }

  /** The search of `s.indexOf(sub)` from position `from` on. */
  function IndexOfFrom(s: string, sub: string, from: nat): (r: int)
    requires from <= |s|
    ensures r == -1 || (from <= r && OccursAt(s, sub, r))
    ensures r == -1 ==> forall k :: from <= k ==> !OccursAt(s, sub, k)
    ensures r != -1 ==> forall k :: from <= k < r ==> !OccursAt(s, sub, k)
    decreases |s| - from
  {
    if from + |sub| > |s| then -1
    else if s[from..from + |sub|] == sub then from
    else IndexOfFrom(s, sub, from + 1)
  }

  /**
   * `s.indexOf(sub)`: the first index where `sub` occurs in `s`, or -1 when it
   * does not occur. `s.indexOf('')` is 0.
   */
  function IndexOf(s: string, sub: string): (r: int)
    ensures -1 <= r
    ensures r == -1 <==> !Contains(s, sub)
    ensures r != -1 ==> OccursAt(s, sub, r) && forall k :: 0 <= k < r ==> !OccursAt(s, sub, k)
  {
    IndexOfFrom(s, sub, 0)
  }

  /** The first index of character `c` in `s` is the first position holding it. */
  lemma IndexOfChar(s: string, c: char, i: nat)
    requires i < |s| && s[i] == c && c !in s[..i]
    ensures IndexOf(s, [c]) == i
  {
    assert OccursAt(s, [c], i) by {
      assert s[i..i + 1] == [s[i]];
    }
    forall k | 0 <= k < i ensures !OccursAt(s, [c], k) {
      assert s[..i][k] == s[k];
      assert s[k..k + 1] == [s[k]];
    }
  }

  /** A character that is not in `s` has no index in it. */
  lemma IndexOfAbsentChar(s: string, c: char)
    requires c !in s
    ensures IndexOf(s, [c]) == -1
  {
    forall k | 0 <= k < |s| ensures !OccursAt(s, [c], k) {
      assert s[k..k + 1] == [s[k]];
    }
  }

  // ---------------------------------------------------------------------------
  // String.prototype.trim

  /** The characters `trim` removes: the WhiteSpace and LineTerminator code points of ECMAScript. */
  predicate IsWhitespace(c: char)
  {
    || c == ' ' || c == '\t' || c == '\n' || c == '\r'
    || c == '\U{000B}' || c == '\U{000C}' || c == '\U{00A0}' || c == '\U{1680}'
    || ('\U{2000}' <= c <= '\U{200A}')
    || c == '\U{2028}' || c == '\U{2029}' || c == '\U{202F}' || c == '\U{205F}'
    || c == '\U{3000}' || c == '\U{FEFF}'
  }

  /** `s` with its leading whitespace removed. */
  function TrimStart(s: string): (r: string)
    ensures |r| <= |s| && r == s[|s| - |r|..]
    ensures r != [] ==> !IsWhitespace(r[0])
    ensures forall k :: 0 <= k < |s| - |r| ==> IsWhitespace(s[k])
  {
    if s != [] && IsWhitespace(s[0]) then TrimStart(s[1..]) else s
  }

  /** `s` with its trailing whitespace removed. */
  function TrimEnd(s: string): (r: string)
    ensures |r| <= |s| && r == s[..|r|]
    ensures r != [] ==> !IsWhitespace(r[|r| - 1])
    ensures forall k :: |r| <= k < |s| ==> IsWhitespace(s[k])
  {
    if s != [] && IsWhitespace(s[|s| - 1]) then TrimEnd(s[..|s| - 1]) else s
  }

  /** `s.trim()`. */
  function Trim(s: string): (r: string)
    ensures r != [] ==> !IsWhitespace(r[0]) && !IsWhitespace(r[|r| - 1])
  {
    TrimEnd(TrimStart(s))
  }

  ghost predicate AllWhitespace(s: string)
  {
    forall k :: 0 <= k < |s| ==> IsWhitespace(s[k])
  }

  /** Leading whitespace does not change `TrimStart`. */
  lemma {:induction false} TrimStartPrefix(w: string, s: string)
    requires AllWhitespace(w)
    ensures TrimStart(w + s) == TrimStart(s)
    decreases |w|
  {
    if w != [] {
      assert (w + s)[1..] == w[1..] + s;
      TrimStartPrefix(w[1..], s);
    } else {
      assert w + s == s;
    }
  }

  /** Trailing whitespace does not change `TrimEnd`. */
  lemma {:induction false} TrimEndSuffix(s: string, w: string)
    requires AllWhitespace(w)
    ensures TrimEnd(s + w) == TrimEnd(s)
    decreases |w|
  {
    if w != [] {
      assert (s + w)[..|s + w| - 1] == s + w[..|w| - 1];
      TrimEndSuffix(s, w[..|w| - 1]);
    } else {
      assert s + w == s;
    }
  }

  /** Once a non-whitespace character is met, `TrimStart` keeps whatever follows. */
  lemma {:induction false} TrimStartAppend(s: string, w: string)
    requires !AllWhitespace(s)
    ensures TrimStart(s + w) == TrimStart(s) + w
    decreases |s|
  {
    if IsWhitespace(s[0]) {
      assert (s + w)[1..] == s[1..] + w;
      assert !AllWhitespace(s[1..]) by {
        var k :| 0 <= k < |s| && !IsWhitespace(s[k]);
        assert s[1..][k - 1] == s[k];
      }
      TrimStartAppend(s[1..], w);
    }
  }

  /** Once a non-whitespace character is met from the end, `TrimEnd` keeps whatever precedes. */
  lemma {:induction false} TrimEndPrepend(w: string, s: string)
    requires !AllWhitespace(s)
    ensures TrimEnd(w + s) == w + TrimEnd(s)
    decreases |s|
  {
    if IsWhitespace(s[|s| - 1]) {
      assert (w + s)[..|w + s| - 1] == w + s[..|s| - 1];
      assert !AllWhitespace(s[..|s| - 1]) by {
        var k :| 0 <= k < |s| && !IsWhitespace(s[k]);
        assert s[..|s| - 1][k] == s[k];
      }
      TrimEndPrepend(w, s[..|s| - 1]);
    }
  }

  /** `trim` ignores whitespace added around a string. */
  lemma TrimSurrounded(w1: string, s: string, w2: string)
    requires AllWhitespace(w1) && AllWhitespace(w2)
    ensures Trim(w1 + s + w2) == Trim(s)
  {
    assert w1 + s + w2 == w1 + (s + w2);
    TrimStartPrefix(w1, s + w2);
    if AllWhitespace(s) {
      assert AllWhitespace(s + w2) by {
        forall k | 0 <= k < |s + w2| ensures IsWhitespace((s + w2)[k]) {
          if k >= |s| { assert (s + w2)[k] == w2[k - |s|]; }
        }
      }
      TrimStartPrefix(s + w2, []);
      TrimStartPrefix(s, []);
      assert s + w2 + [] == s + w2;
      assert s + [] == s;
    } else {
      TrimStartAppend(s, w2);
      TrimEndSuffix(TrimStart(s), w2);
    }
  }

  /** One leading space makes no difference to `trim`. */
  lemma TrimLeadingSpace(s: string)
    ensures Trim(" " + s) == Trim(s)
  {
    TrimSurrounded(" ", s, []);
    assert " " + s + [] == " " + s;
    assert AllWhitespace([]);
  }
}
