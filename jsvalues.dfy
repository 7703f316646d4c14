/** JavaScript values as the services see them once a request body, a query
    string or a broker message has been parsed, together with the few
    string operations of the JavaScript runtime that the validators depend on
    (`trim`, `length` in UTF-16 code units, truthiness). */
module JsValues {

  datatype Option<+T> = None | Some(value: T)

  datatype Result<+T, +E> = Ok(value: T) | Err(error: E)

  /** An error raised as `new HttpError(status, message, details)`: the
      status code and a reason naming the check that failed. */
  datatype HttpError<+R> = HttpError(status: nat, reason: R)

  /** A JSON value. Numbers are integers here. An object is the sequence of
      its entries in the order `Object.keys` / `Object.entries` report them. */
  datatype Json =
    | JNull
    | JBool(b: bool)
    | JNum(n: int)
    | JStr(s: string)
    | JArr(items: seq<Json>)
    | JObj(fields: seq<(string, Json)>)

  /** `JSON.parse`: the parsed value, or the message of the SyntaxError. */
  type JsonParser = string -> Result<Json, string>

  /** `Date.parse` applied to a value: milliseconds since the epoch, or None for NaN. */
  type DateParser = Json -> Option<int>

  /** `new Date(ms).toISOString()`. */
  type IsoFormatter = int -> string

  /** `Buffer.byteLength(JSON.stringify(v), 'utf8')`. */
  type ByteSize = Json -> nat

  /** `Number(s)` on a string when the result is an integer; None when it is
      NaN or has a fractional part. */
  type StringToInteger = string -> Option<int>

  /** The shared `isObject` helper: not null, of type "object", not an array. */
  predicate IsObject(j: Json) {
    j.JObj?
  }

  /** JavaScript truthiness of a JSON value. */
  predicate Truthy(j: Json) {
    match j
    case JNull => false
    case JBool(b) => b
    case JNum(n) => n != 0
    case JStr(s) => s != ""
    case _ => true
  }

  /** Truthiness of a property read: `undefined` is falsy. */
  predicate Present(v: Option<Json>) {
    v.Some? && Truthy(v.value)
  }

  /** `Number.isInteger(Number(v))`, giving the integer. Numbers, booleans
      and null convert as JavaScript converts them; strings go through
      `ofString`; arrays and objects are taken to be NaN. */
  function NumberInteger(v: Json, ofString: StringToInteger): Option<int> {
    match v
    case JNum(n) => Some(n)
    case JBool(b) => Some(if b then 1 else 0)
    case JNull => Some(0)
    case JStr(s) => ofString(s)
    case _ => None
  }

  function KeysOf(fields: seq<(string, Json)>): (keys: seq<string>)
    ensures |keys| == |fields|
    ensures forall i :: 0 <= i < |fields| ==> keys[i] == fields[i].0
  {
    if fields == [] then [] else [fields[0].0] + KeysOf(fields[1..])
  }

  /** `Object.keys(j)` for an object; no keys otherwise. */
  function Keys(j: Json): seq<string> {
    if j.JObj? then KeysOf(j.fields) else []
  }

  /** The value of the first entry with key `key`. */
  function Lookup(fields: seq<(string, Json)>, key: string): Option<Json> {
    if fields == [] then None
    else if fields[0].0 == key then Some(fields[0].1)
    else Lookup(fields[1..], key)
  }

  /** A lookup finds a value exactly when the key is among the object's
      keys, and the value it finds is the first entry under that key. */
  lemma {:induction false} LookupFinds(fields: seq<(string, Json)>, key: string)
    ensures Lookup(fields, key).Some? <==> key in KeysOf(fields)
    ensures Lookup(fields, key).Some? ==>
      exists i :: 0 <= i < |fields| && fields[i] == (key, Lookup(fields, key).value)
                  && forall j :: 0 <= j < i ==> fields[j].0 != key
  {
    if fields != [] {
      LookupFinds(fields[1..], key);
      if fields[0].0 != key {
        assert KeysOf(fields) == [fields[0].0] + KeysOf(fields[1..]);
        if Lookup(fields, key).Some? {
          var i :| 0 <= i < |fields[1..]| && fields[1..][i] == (key, Lookup(fields, key).value)
                   && forall j :: 0 <= j < i ==> fields[1..][j].0 != key;
          assert fields[i + 1] == (key, Lookup(fields, key).value);
          assert forall j :: 0 <= j < i + 1 ==> fields[j].0 != key by {
            forall j | 0 <= j < i + 1 ensures fields[j].0 != key {
              if j > 0 { assert fields[j] == fields[1..][j - 1]; }
            }
          }
        }
      } else {
        assert KeysOf(fields)[0] == key;
      }
    }
  }

  /** A property read `j.key`: None stands for `undefined`. */
  function Get(j: Json, key: string): Option<Json> {
    if j.JObj? then Lookup(j.fields, key) else None
  }

  /** `keys.filter((key) => !allowed.includes(key))`. */
  function Without(keys: seq<string>, allowed: seq<string>): seq<string> {
    if keys == [] then []
    else (if keys[0] in allowed then [] else [keys[0]]) + Without(keys[1..], allowed)
  }

  /** The filter keeps exactly the keys outside the allow-list, never
      adds any, and keeps their order: it is empty exactly when every key
      is allowed. */
  lemma {:induction false} WithoutMembers(keys: seq<string>, allowed: seq<string>)
    ensures forall k :: k in Without(keys, allowed) <==> k in keys && k !in allowed
    ensures |Without(keys, allowed)| <= |keys|
    ensures Without(keys, allowed) == [] <==> forall i :: 0 <= i < |keys| ==> keys[i] in allowed
  {
    if keys != [] {
      WithoutMembers(keys[1..], allowed);
      assert keys == [keys[0]] + keys[1..];
      assert forall i :: 1 <= i < |keys| ==> keys[i] == keys[1..][i - 1];
    }
  }

  /** `str.startsWith(prefix)`. */
  predicate StartsWith(str: string, prefix: string) {
    |prefix| <= |str| && str[..|prefix|] == prefix
  }

  /** The characters `String.prototype.trim` removes: WhiteSpace and
      LineTerminator of ECMAScript (tab, line feed, vertical tab, form feed,
      carriage return, the Unicode space separators, U+2028, U+2029 and the
      byte order mark). */
  predicate IsJsWhitespace(c: char) {
    var n := c as int;
    (9 <= n <= 13) || n == 0x20 || n == 0xA0 || n == 0x1680 || (0x2000 <= n <= 0x200A)
    || n == 0x2028 || n == 0x2029 || n == 0x202F || n == 0x205F || n == 0x3000 || n == 0xFEFF
  }

  predicate AllWhitespace(s: string) {
    forall i :: 0 <= i < |s| ==> IsJsWhitespace(s[i])
  }

  /** Number of leading whitespace characters. */
  function LeadingSpace(s: string): (k: nat)
    ensures k <= |s|
    ensures AllWhitespace(s[..k])
    ensures k < |s| ==> !IsJsWhitespace(s[k])
  {
    if s == [] || !IsJsWhitespace(s[0]) then 0
    else
      var k := 1 + LeadingSpace(s[1..]);
      assert s[..k] == [s[0]] + s[1..][..k - 1];
      k
  }

  /** Number of trailing whitespace characters. */
  function TrailingSpace(s: string): (k: nat)
    ensures k <= |s|
    ensures AllWhitespace(s[|s| - k..])
    ensures k < |s| ==> !IsJsWhitespace(s[|s| - k - 1])
  {
    if s == [] || !IsJsWhitespace(s[|s| - 1]) then 0
    else
      var init := s[..|s| - 1];
      var k := 1 + TrailingSpace(init);
      assert s[|s| - k..] == init[|init| - (k - 1)..] + [s[|s| - 1]];
      k
  }

  /** `str.trim()`. */
  function Trim(s: string): string {
    var rest := s[LeadingSpace(s)..];
    rest[..|rest| - TrailingSpace(rest)]
  }

  /** A property that is a string, not blank once trimmed, and at most
      `max` UTF-16 code units long before trimming: the rule several
      validators apply to free-text fields. */
  predicate StringOk(value: Option<Json>, max: nat) {
    value.Some? && value.value.JStr? && !AllWhitespace(value.value.s) && JsLength(value.value.s) <= max
  }

  /** The length of a string in UTF-16 code units, as JavaScript's
      `length` counts it: a character outside the Basic Multilingual Plane
      counts twice. */
  function JsLength(s: string): nat {
    if s == [] then 0 else (if s[0] as int > 0xFFFF then 2 else 1) + JsLength(s[1..])
  }

  lemma {:induction false} JsLengthAppend(a: string, b: string)
    ensures JsLength(a + b) == JsLength(a) + JsLength(b)
  {
    if a != [] {
      var ab := a + b;
      assert ab[0] == a[0];
      assert ab[1..] == a[1..] + b;
      JsLengthAppend(a[1..], b);
      assert JsLength(ab) == (if a[0] as int > 0xFFFF then 2 else 1) + JsLength(ab[1..]);
    } else {
      assert a + b == b;
    }
  }

  /** A string is blank for `trim().length === 0` exactly when every
      character is whitespace. */
  lemma {:induction false} TrimEmptyIffBlank(s: string)
    ensures Trim(s) == "" <==> AllWhitespace(s)
  {
    var k := LeadingSpace(s);
    var rest := s[k..];
    if k < |s| {
      assert rest[0] == s[k];
      var t := TrailingSpace(rest);
      assert Trim(s) == rest[..|rest| - t];
      assert |Trim(s)| > 0;
      assert !IsJsWhitespace(s[k]);
    } else {
      assert s[..k] == s;
      assert rest == [];
    }
  }

  /** The trimmed string has no whitespace at either end and is a
      contiguous part of the original. */
  lemma TrimShape(s: string)
    ensures Trim(s) != "" ==> !IsJsWhitespace(Trim(s)[0]) && !IsJsWhitespace(Trim(s)[|Trim(s)| - 1])
    ensures exists i, j :: 0 <= i <= j <= |s| && Trim(s) == s[i..j]
  {
    var k := LeadingSpace(s);
    var rest := s[k..];
    var t := TrailingSpace(rest);
    assert Trim(s) == s[k..|s| - t];
  }

  /** A slice is never longer than the whole, in UTF-16 code units. */
  lemma SliceShortens(s: string, i: nat, j: nat)
    requires i <= j <= |s|
    ensures JsLength(s[i..j]) <= JsLength(s)
  {
    var head, middle, tail := s[..i], s[i..j], s[j..];
    assert s == head + middle + tail;
    JsLengthAppend(head + middle, tail);
    JsLengthAppend(head, middle);
  }

  /** Trimming never makes a string longer, in UTF-16 code units. */
  lemma TrimShortens(s: string)
    ensures JsLength(Trim(s)) <= JsLength(s)
  {
    var k := LeadingSpace(s);
    var t := TrailingSpace(s[k..]);
    assert Trim(s) == s[k..|s| - t];
    SliceShortens(s, k, |s| - t);
  }

  /** Trimming is idempotent. */
  lemma TrimIdempotent(s: string)
    ensures Trim(Trim(s)) == Trim(s)
  {
    TrimShape(s);
    var t := Trim(s);
    if t != "" {
      assert LeadingSpace(t) == 0;
      assert t[0..] == t;
      assert TrailingSpace(t) == 0;
    } else {
      TrimEmptyIffBlank(t);
    }
  }
}
