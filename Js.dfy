/** JavaScript values as the worker handlers see them, and the few built-in
    operations the handlers apply to them: truthiness, conversion to string in
    a template literal, array destructuring, `String.prototype.trim` and the
    `length` of a string (in UTF-16 code units). Also the two-element arrays
    the handlers post back, and thrown errors as values. */
module Js {

  /** A value received in a message. Arrays keep their elements; strings keep
      their characters; every other value (numbers, booleans, plain objects)
      is reduced to what the handlers observe of it: its truthiness and its
      conversion to string. */
  datatype JsValue =
    | Undefined
    | Null
    | Str(s: string)
    | Arr(elems: seq<JsValue>)
    | Other(truthy: bool, text: string)

  /** JavaScript truthiness: `!v` is `!Truthy(v)`. */
  predicate Truthy(v: JsValue)
  {
    match v
    case Undefined => false
    case Null => false
    case Str(s) => |s| > 0
    case Arr(_) => true
    case Other(t, _) => t
  }

  /** The falsy values the handlers can meet are exactly `undefined`,
      `null`, the empty string and the falsy primitives among the other
      values; every array, even an empty one, is truthy. */
  lemma FalsyValues(v: JsValue)
    ensures !Truthy(v) <==> v == Undefined || v == Null || v == Str("") || (v.Other? && !v.truthy)
    ensures v.Arr? ==> Truthy(v)
  {
  }

  /** The string a template literal `${v}` produces. An array converts as
      `join(',')`, where `undefined` and `null` elements become empty. */
  function Display(v: JsValue): string
    decreases v
  {
    match v
    case Undefined => "undefined"
    case Null => "null"
    case Str(s) => s
    case Other(_, text) => text
    case Arr(elems) => Join(elems)
  }

  /** `Array.prototype.join(',')` over the elements of an array. */
  function Join(elems: seq<JsValue>): string
    decreases elems
  {
    if elems == [] then ""
    else
      var first := if elems[0].Undefined? || elems[0].Null? then "" else Display(elems[0]);
      if |elems| == 1 then first else first + "," + Join(elems[1..])
  }

  /** Element `i` of an array as array destructuring reads it: `undefined`
      past the end. */
  function At(elems: seq<JsValue>, i: nat): JsValue
  {
    if i < |elems| then elems[i] else Undefined
  }

  /** The characters `String.prototype.trim` removes: ECMAScript WhiteSpace
      (tab, vertical tab, form feed, space, no-break space, the byte order
      mark and the space separators of Unicode category Zs) and
      LineTerminator code points. */
  predicate IsWhitespace(c: char)
  {
    c == '\t' || c == '\n' || c == '\U{000B}' || c == '\U{000C}' || c == '\r' ||
    c == ' ' || c == '\U{00A0}' || c == '\U{1680}' ||
    ('\U{2000}' <= c <= '\U{200A}') ||
    c == '\U{2028}' || c == '\U{2029}' || c == '\U{202F}' || c == '\U{205F}' ||
    c == '\U{3000}' || c == '\U{FEFF}'
  }

  predicate AllWhitespace(s: string)
  {
    forall k :: 0 <= k < |s| ==> IsWhitespace(s[k])
  }

  /** `s` without its leading whitespace. */
  function TrimStart(s: string): string
  {
    if |s| > 0 && IsWhitespace(s[0]) then TrimStart(s[1..]) else s
  }

  /** `s` without its trailing whitespace. */
  function TrimEnd(s: string): string
  {
    if |s| > 0 && IsWhitespace(s[|s| - 1]) then TrimEnd(s[..|s| - 1]) else s
  }

  /** `String.prototype.trim`. */
  function Trim(s: string): string
  {
    TrimEnd(TrimStart(s))
  }

  /** `TrimStart` removes a prefix made only of whitespace, and no more. */
  lemma {:induction false} TrimStartRemovesLeadingWhitespace(s: string)
    ensures var r := TrimStart(s);
      |r| <= |s| && r == s[|s| - |r|..] && AllWhitespace(s[..|s| - |r|]) &&
      (r == [] || !IsWhitespace(r[0]))
  {
    if |s| > 0 && IsWhitespace(s[0]) {
      TrimStartRemovesLeadingWhitespace(s[1..]);
      var r := TrimStart(s[1..]);
      assert s[..|s| - |r|] == [s[0]] + s[1..][..|s| - 1 - |r|];
    }
  }

  /** `TrimEnd` removes a suffix made only of whitespace, and no more. */
  lemma {:induction false} TrimEndRemovesTrailingWhitespace(s: string)
    ensures var r := TrimEnd(s);
      |r| <= |s| && r == s[..|r|] && AllWhitespace(s[|r|..]) &&
      (r == [] || !IsWhitespace(r[|r| - 1]))
  {
    if |s| > 0 && IsWhitespace(s[|s| - 1]) {
      TrimEndRemovesTrailingWhitespace(s[..|s| - 1]);
      var r := TrimEnd(s[..|s| - 1]);
      assert s[|r|..] == s[..|s| - 1][|r|..] + [s[|s| - 1]];
    }
  }

  /** `Trim(s)` is the part of `s` from the end of its whitespace prefix
      on, cut before a whitespace suffix. */
  lemma TrimSplits(s: string)
    ensures var i, r := |s| - |TrimStart(s)|, Trim(s);
      0 <= i && i + |r| <= |s| && r == s[i..i + |r|] &&
      AllWhitespace(s[..i]) && AllWhitespace(s[i + |r|..]) &&
      (r == [] || (!IsWhitespace(r[0]) && !IsWhitespace(r[|r| - 1])))
  {
    var t := TrimStart(s);
    TrimStartRemovesLeadingWhitespace(s);
    var i := |s| - |t|;
    TrimEndRemovesTrailingWhitespace(t);
    var r := TrimEnd(t);
    SliceOfSuffix(s, i, |r|);
    if r != [] {
      assert r[0] == t[0];
    }
  }

  /** Slicing a suffix `s[i..]` is slicing `s` itself, shifted by `i`. */
  lemma SliceOfSuffix(s: string, i: nat, j: nat)
    requires i + j <= |s|
    ensures s[i..][..j] == s[i..i + j] && s[i..][j..] == s[i + j..]
  {
  }

  /** `Trim(s)` is the part of `s` between a whitespace prefix and a
      whitespace suffix, and begins and ends with a non-whitespace
      character when it is not empty. */
  lemma TrimKeepsCore(s: string)
    ensures var r := Trim(s);
      |r| <= |s| &&
      (r == [] || (!IsWhitespace(r[0]) && !IsWhitespace(r[|r| - 1]))) &&
      exists i :: 0 <= i <= |s| - |r| && r == s[i..i + |r|] &&
        AllWhitespace(s[..i]) && AllWhitespace(s[i + |r|..])
  {
    TrimSplits(s);
    var i := |s| - |TrimStart(s)|;
    assert 0 <= i <= |s| - |Trim(s)|;
  }

  /** Trimming leaves a string empty exactly when it held only whitespace. */
  lemma TrimEmptyIffAllWhitespace(s: string)
    ensures Trim(s) == [] <==> AllWhitespace(s)
  {
    var t := TrimStart(s);
    TrimStartRemovesLeadingWhitespace(s);
    TrimEndRemovesTrailingWhitespace(t);
    if Trim(s) == [] {
      assert t[0..] == t;
      assert s[..|s| - |t|] == s;
    }
  }

  /** A second trim changes nothing. */
  lemma TrimIdempotent(s: string)
    ensures Trim(Trim(s)) == Trim(s)
  {
    TrimKeepsCore(s);
    var t := Trim(s);
    assert TrimStart(t) == t;
    assert TrimEnd(t) == t;
  }

  /** `s.length`: the number of UTF-16 code units, so a code point above
      U+FFFF counts twice. */
  function Utf16Length(s: string): (n: nat)
    ensures |s| <= n <= 2 * |s|
  {
    if s == [] then 0
    else (if s[0] as int >= 0x1_0000 then 2 else 1) + Utf16Length(s[1..])
  }

  /** A string of Basic Multilingual Plane characters has one code unit per
      character. */
  lemma {:induction false} Utf16LengthOfBmp(s: string)
    requires forall k :: 0 <= k < |s| ==> s[k] as int < 0x1_0000
    ensures Utf16Length(s) == |s|
  {
    if s != [] {
      Utf16LengthOfBmp(s[1..]);
    }
  }

  /** A module-level variable that starts as `null` and later holds a value. */
  datatype Option<T> = None | Some(value: T)

  /** A thrown error (its `message`) or a returned value. */
  datatype Outcome<T> = Returned(value: T) | Threw(message: string)

  /** The second element of a posted array: a plain value, or the object
      `{error: message}`. */
  datatype Body = Value(v: JsValue) | ErrorRecord(message: string)

  /** The two-element array `[head, body]` a handler posts. */
  datatype Posted = Posted(head: JsValue, body: Body)

  /** `['error', message]`: the envelope of a rejected message, and the
      ElGamal and AES envelope of every failure. */
  function ErrorPair(message: string): Posted
  {
    Posted(Str("error"), Value(Str(message)))
  }

  /** The second element of an RSA reply: the result itself, or
      `{error: error.message}` for a caught error. */
  function ResultBody(o: Outcome<JsValue>): Body
  {
    match o
    case Returned(v) => Value(v)
    case Threw(m) => ErrorRecord(m)
  }
}
