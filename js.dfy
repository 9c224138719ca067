/**
 * The JavaScript values the normaliser reads: a JSON-shaped value type, the
 * truthiness test the source applies with `if (x)` and `x || y`, the keys a
 * `_.each` over an object or an array visits, and the exceptions the three
 * parsers can raise.
 */
module Js {

  datatype Option<+T> = None | Some(value: T)

  /** A decoded JSON value; `undefined` is the `None` of an `Option<Json>`. */
  datatype Json =
    | JNull
    | JBool(b: bool)
    | JNum(n: int)
    | JStr(s: string)
    | JArr(items: seq<Json>)
    | JObj(members: seq<(string, Json)>)

  /** JavaScript truthiness: `null`, `false`, `0` and `""` are falsy, arrays and objects are truthy. */
  predicate Truthy(v: Json) {
    match v
    case JNull => false
    case JBool(b) => b
    case JNum(n) => n != 0
    case JStr(s) => s != ""
    case JArr(_) => true
    case JObj(_) => true
  }

  /** Truthiness of a property that may be `undefined`. */
  predicate Present(v: Option<Json>) {
    v.Some? && Truthy(v.value)
  }

  /** Truthiness of a string property that may be `undefined`. */
  predicate NonEmpty(s: Option<string>) {
    s.Some? && s.value != ""
  }

  /** lodash `_.isObject`: arrays and objects, not `null` and not scalars. */
  predicate IsObject(v: Option<Json>) {
    v.Some? && (v.value.JArr? || v.value.JObj?)
  }

  /** The exceptions the normaliser can raise. */
  datatype Error =
    | UnknownLocation(location: string)   // `_self[in + 's']` is undefined, so `.push` throws
    | ResponseParserWithoutParse          // `new ResponseParser(...)` throws in `ParserInterface`
    | EmptyMethodName                     // `result[0]` is undefined, so `.toUpperCase()` throws

  datatype Result<+T> = Success(value: T) | Failure(error: Error)

  function DigitChar(d: nat): (c: char)
    requires d < 10
    ensures '0' <= c <= '9'
  {
    ('0' as int + d) as char
  }

  predicate AllDigits(s: string) {
    forall i :: 0 <= i < |s| ==> '0' <= s[i] <= '9'
  }

  /** The value of a decimal numeral, most significant digit first. */
  function DigitsValue(s: string): int
    decreases |s|
  {
    if s == [] then 0 else 10 * DigitsValue(s[..|s| - 1]) + (s[|s| - 1] as int - '0' as int)
  }

  /** `String(n)` for a non-negative integer: the key a JavaScript array index has. */
  function DecimalString(n: nat): (r: string)
    ensures |r| >= 1 && AllDigits(r)
    ensures n < 10 <==> |r| == 1
    ensures DigitsValue(r) == n
    ensures r[0] == '0' <==> n == 0
  {
    if n < 10 then [DigitChar(n)]
    else
      var high := DecimalString(n / 10);
      assert (high + [DigitChar(n % 10)])[..|high|] == high;
      high + [DigitChar(n % 10)]
  }

  /** Distinct indices have distinct keys. */
  lemma DecimalStringInjective(m: nat, n: nat)
    ensures DecimalString(m) == DecimalString(n) <==> m == n
  {
  }

  /** The keys `_.each` visits on an array of length `n`: "0", "1", ... */
  function IndexKeys(n: nat): (r: seq<string>)
    ensures |r| == n
    ensures forall i :: 0 <= i < n ==> r[i] == DecimalString(i)
  {
    if n == 0 then [] else IndexKeys(n - 1) + [DecimalString(n - 1)]
  }

  /** The keys of an object's members, in insertion order. */
  function Keys<V>(m: seq<(string, V)>): (r: seq<string>)
    ensures |r| == |m|
    ensures forall i :: 0 <= i < |m| ==> r[i] == m[i].0
  {
    if m == [] then [] else Keys(m[..|m| - 1]) + [m[|m| - 1].0]
  }

  /* ---------- Sequence facts, proved once for every element type ----------
   * Proof helpers only: they model nothing of the normaliser and are called
   * where the solver needs the fact spelled out. */

  lemma SnocInit<T>(s: seq<T>, x: T)
    ensures (s + [x])[..|s|] == s && (s + [x])[|s|] == x
  {
  }

  lemma SnocSplit<T>(xs: seq<T>, ys: seq<T>)
    requires ys != []
    ensures xs + ys == (xs + ys[..|ys| - 1]) + [ys[|ys| - 1]]
    ensures ys == ys[..|ys| - 1] + [ys[|ys| - 1]]
  {
  }

  lemma InitLast<T>(s: seq<T>)
    requires s != []
    ensures s == s[..|s| - 1] + [s[|s| - 1]]
  {
  }

  lemma AppendAssoc3<T>(a: seq<T>, b: seq<T>, c: seq<T>)
    ensures (a + b) + c == a + (b + c)
  {
  }

  lemma AppendEmpty<T>(a: seq<T>)
    ensures a + [] == a && [] + a == a
  {
  }

  lemma PrefixStep<T>(s: seq<T>, i: nat)
    requires i < |s|
    ensures s[..i + 1][..i] == s[..i] && s[..i + 1][i] == s[i]
  {
  }

  lemma PrefixWhole<T>(s: seq<T>)
    ensures s[..|s|] == s
  {
  }
}
