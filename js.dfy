/** The slice of JavaScript's value model that the SDK relies on: JSON-like
    values, what a `throw` can carry, truthiness, property reads and the
    `String(v)` conversion used by template literals and `URLSearchParams`. */
module Js {

  datatype Option<+T> = None | Some(value: T)

  /** A JSON-like JavaScript value: what `response.json()` yields and what the
      SDK's records hold. Numbers are integers (see README, "Left out"). */
  datatype Json =
    | JUndefined
    | JNull
    | JBool(b: bool)
    | JNum(n: int)
    | JStr(s: string)
    | JArr(items: seq<Json>)
    | JObj(fields: seq<Prop>)

  /** One own enumerable property of an object, in insertion order. */
  datatype Prop = Prop(key: string, val: Json)

  /** The SDK's `ApiError`: an `Error` whose `name` is `'ApiError'`. */
  datatype ApiError = ApiError(message: string, code: Json, status: int, details: Json)

  /** Whatever a `throw` can carry. */
  datatype Thrown =
    | ApiErr(apiError: ApiError)            // an ApiError built by BaseApi.createApiError
    | JsErr(name: string, message: string)  // any other Error instance (Error, TypeError, SyntaxError, ...)
    | Raw(value: Json)                      // a thrown value that is not an Error instance

  /** The completion of an awaited call: a normal value or a throw. */
  datatype Result<+T> = Ok(value: T) | Throw(thrown: Thrown)

  /** `if (v)`: false for undefined, null, false, 0 and the empty string. */
  predicate Truthy(v: Json) {
    match v
    case JUndefined => false
    case JNull => false
    case JBool(b) => b
    case JNum(n) => n != 0
    case JStr(s) => s != ""
    case _ => true
  }

  predicate Nullish(v: Json) {
    v.JUndefined? || v.JNull?
  }

  /** `a || b` */
  function Or(a: Json, b: Json): Json {
    if Truthy(a) then a else b
  }

  /** The value of the last property named `key` (JSON.parse keeps the last
      of duplicated keys), or undefined. */
  function Lookup(fields: seq<Prop>, key: string): Json {
    if fields == [] then JUndefined
    else if fields[|fields| - 1].key == key then fields[|fields| - 1].val
    else Lookup(fields[..|fields| - 1], key)
  }

  /** The TypeError V8 raises for `v.key` when `v` is null or undefined. */
  function NullishRead(v: Json, key: string): Thrown
    requires Nullish(v)
  {
    JsErr("TypeError", "Cannot read properties of " + (if v.JNull? then "null" else "undefined")
                       + " (reading '" + key + "')")
  }

  /** `v.key`: throws on null and undefined, reads an object's own property,
      and is undefined on every other value for the keys the SDK reads. */
  function GetProp(v: Json, key: string): (r: Result<Json>)
    ensures r.Throw? <==> Nullish(v)
  {
    match v
    case JUndefined => Throw(NullishRead(v, key))
    case JNull => Throw(NullishRead(v, key))
    case JObj(fields) => Ok(Lookup(fields, key))
    case _ => Ok(JUndefined)
  }

  /** `v.key` on a value already known not to be null or undefined. */
  function Field(v: Json, key: string): Json
    requires !Nullish(v)
  {
    GetProp(v, key).value
  }

  /** The numeric value of `v` in arithmetic, None standing for NaN.
      Strings, arrays and objects are taken as NaN (see README, "Left out"). */
  function ToNumber(v: Json): Option<int> {
    match v
    case JNum(n) => Some(n)
    case JNull => Some(0)
    case JBool(b) => Some(if b then 1 else 0)
    case _ => None
  }

  function DigitChar(d: nat): char
    requires d < 10
  {
    "0123456789"[d]
  }

  function NatToString(n: nat): (s: string)
    ensures |s| >= 1
  {
    if n < 10 then [DigitChar(n)] else NatToString(n / 10) + [DigitChar(n % 10)]
  }

  /** `String(n)` for an integer. */
  function IntToString(n: int): string {
    if n < 0 then "-" + NatToString(-n) else NatToString(n)
  }

  function Join(parts: seq<string>, sep: string): string {
    if parts == [] then ""
    else if |parts| == 1 then parts[0]
    else parts[0] + sep + Join(parts[1..], sep)
  }

  /** `String(v)`, as template literals and `URLSearchParams` apply it. */
  function Display(v: Json): string {
    match v
    case JUndefined => "undefined"
    case JNull => "null"
    case JBool(b) => if b then "true" else "false"
    case JNum(n) => IntToString(n)
    case JStr(s) => s
    case JArr(items) =>
      Join(seq(|items|, i requires 0 <= i < |items| =>
                          if Nullish(items[i]) then "" else Display(items[i])), ",")
    case JObj(_) => "[object Object]"
  }

  /** A string's `length`: its count of UTF-16 code units. A character
      beyond the Basic Multilingual Plane takes a surrogate pair. */
  function Length(s: string): (n: nat)
    ensures |s| <= n <= 2 * |s|
    ensures (forall i :: 0 <= i < |s| ==> s[i] as int < 0x1_0000) ==> n == |s|
    ensures (exists i :: 0 <= i < |s| && s[i] as int >= 0x1_0000) ==> n > |s|
  {
    if s == [] then 0
    else
      assert forall i :: 1 <= i < |s| ==> s[1..][i - 1] == s[i];
      (if s[0] as int < 0x1_0000 then 1 else 2) + Length(s[1..])
  }

  /** ASCII `toLowerCase` of one character. */
  function LowerChar(c: char): char {
    if 'A' <= c <= 'Z' then (c as int + 32) as char else c
  }

  function Lower(s: string): (r: string)
    ensures |r| == |s| && forall i :: 0 <= i < |s| ==> r[i] == LowerChar(s[i])
  {
    if s == [] then [] else [LowerChar(s[0])] + Lower(s[1..])
  }

  /** Text without capital letters is its own lower case. */
  lemma LowerKeepsLowercase(s: string)
    requires forall i :: 0 <= i < |s| ==> !('A' <= s[i] <= 'Z')
    ensures Lower(s) == s
  {
  }

  /** `s.includes(sub)` */
  predicate Includes(s: string, sub: string) {
    sub <= s || (s != [] && Includes(s[1..], sub))
  }

  /** White space as `String.prototype.trim` removes it, restricted to ASCII. */
  predicate IsSpace(c: char) {
    c == ' ' || c == '\t' || c == '\n' || c == '\r' || c == '\U{0B}' || c == '\U{0C}'
  }

  /** The first index from `i` on that does not hold white space. */
  function SkipSpace(s: string, i: nat): (j: nat)
    requires i <= |s|
    ensures i <= j <= |s| && (j == |s| || !IsSpace(s[j]))
    ensures forall k :: i <= k < j ==> IsSpace(s[k])
    decreases |s| - i
  {
    if i < |s| && IsSpace(s[i]) then SkipSpace(s, i + 1) else i
  }

  /** The end of the text before `j` once trailing white space down to `lo`
      is dropped. */
  function BackSpace(s: string, lo: nat, j: nat): (b: nat)
    requires lo <= j <= |s|
    ensures lo <= b <= j && (b == lo || !IsSpace(s[b - 1]))
    ensures forall k :: b <= k < j ==> IsSpace(s[k])
    decreases j
  {
    if j > lo && IsSpace(s[j - 1]) then BackSpace(s, lo, j - 1) else j
  }

  /** `r` is `s` with white space only cut off before offset `i` and after `r`. */
  predicate SpaceCut(s: string, r: string, i: int) {
    && 0 <= i <= i + |r| <= |s| && r == s[i..i + |r|]
    && (forall k :: 0 <= k < i ==> IsSpace(s[k]))
    && (forall k :: i + |r| <= k < |s| ==> IsSpace(s[k]))
  }

  /** `s.trim()`: a slice of `s` that neither starts nor ends with white
      space, with only white space cut off on either side. */
  function Trim(s: string): (r: string)
    ensures exists i :: SpaceCut(s, r, i)
    ensures r == [] || (!IsSpace(r[0]) && !IsSpace(r[|r| - 1]))
  {
    var a := SkipSpace(s, 0);
    var b := BackSpace(s, a, |s|);
    assert SpaceCut(s, s[a..b], a);
    s[a..b]
  }



  /** An optional field of an options record: undefined when left out. */
  function OptNum(o: Option<int>): Json {
    if o.Some? then JNum(o.value) else JUndefined
  }

  function OptStr(o: Option<string>): Json {
    if o.Some? then JStr(o.value) else JUndefined
  }
}
