/**
 * Values shared by the whole model: optional and fallible results, the JSON
 * values that cross the HTTP boundary, the JavaScript coercions the source
 * relies on (truthiness, `Number(...)`, number-to-text in template strings),
 * and the HTTP response shape of the two route handlers.
 */
module Common {

  datatype Option<+T> = None | Some(value: T)

  datatype Result<+T, +E> = Success(value: T) | Failure(error: E)

  /** A JSON value. Numbers are restricted to integers (see README, "Left out"). */
  datatype Json =
    | JNull
    | JBool(b: bool)
    | JNum(n: int)
    | JStr(s: string)
    | JArr(items: seq<Json>)
    | JObj(members: seq<(string, Json)>)

  /** JavaScript truthiness of a JSON value: arrays and objects are always truthy. */
  predicate Truthy(j: Json) {
    match j
    case JNull => false
    case JBool(b) => b
    case JNum(n) => n != 0
    case JStr(s) => s != ""
    case JArr(_) => true
    case JObj(_) => true
  }

  /** Truthiness of a property that may be undefined (`None`). */
  predicate IsTruthy(v: Option<Json>) {
    v.Some? && Truthy(v.value)
  }

  /** `a || b` on strings, where "" is falsy. */
  function OrElse(a: string, b: string): string {
    if a != "" then a else b
  }

  predicate IsDigit(c: char) {
    '0' <= c <= '9'
  }

  predicate AllDigits(s: string) {
    forall i :: 0 <= i < |s| ==> IsDigit(s[i])
  }

  /** The value of a string of decimal digits ("" has value 0, as `Number("")` does). */
  function DigitsValue(s: string): nat
    requires AllDigits(s)
  {
    if s == [] then 0 else DigitsValue(s[..|s| - 1]) * 10 + (s[|s| - 1] as int - '0' as int)
  }

  /**
   * JavaScript `Number(v)` restricted to the integer results the model keeps:
   * `None` stands for NaN.
   */
  function ToNumber(v: Option<Json>): Option<int> {
    match v
    case None => None
    case Some(JNull) => Some(0)
    case Some(JBool(b)) => Some(if b then 1 else 0)
    case Some(JNum(n)) => Some(n)
    case Some(JStr(s)) => if AllDigits(s) then Some(DigitsValue(s)) else None
    case Some(JArr(_)) => None
    case Some(JObj(_)) => None
  }

  function DigitChar(d: nat): char
    requires d < 10
  {
    ('0' as int + d) as char
  }

  /** Decimal rendering of a natural number, as a template string shows it. */
  function NatToDecimal(n: nat): string
    decreases n
  {
    if n < 10 then [DigitChar(n)] else NatToDecimal(n / 10) + [DigitChar(n % 10)]
  }

  /** Decimal rendering of an integer, as `${n}` shows it. */
  function IntToDecimal(n: int): string {
    if n < 0 then "-" + NatToDecimal(-n) else NatToDecimal(n)
  }

  /** `s.includes(sub)`: `sub` occurs in `s` at some position. */
  predicate Contains(s: string, sub: string)
    decreases |s|
  {
    |sub| <= |s| && (s[..|sub|] == sub || Contains(s[1..], sub))
  }

  /**
   * The value of property `key` in a list of object members: the last member
   * with that key, as `JSON.parse` keeps the last of duplicated keys.
   */
  function LastMember(ms: seq<(string, Json)>, key: string): (r: Option<Json>)
    ensures r.None? <==> forall i :: 0 <= i < |ms| ==> ms[i].0 != key
    ensures r.Some? ==> exists i :: 0 <= i < |ms| && ms[i] == (key, r.value)
                          && forall k :: i < k < |ms| ==> ms[k].0 != key
  {
    if ms == [] then None
    else if ms[|ms| - 1].0 == key then Some(ms[|ms| - 1].1)
    else
      var init := ms[..|ms| - 1];
      var r := LastMember(init, key);
      assert r.None? ==> forall i :: 0 <= i < |ms| ==> ms[i].0 != key by {
        if r.None? {
          forall i | 0 <= i < |ms| ensures ms[i].0 != key {
            if i < |init| { assert ms[i] == init[i]; }
          }
        }
      }
      assert r.Some? ==> exists i :: 0 <= i < |ms| && ms[i] == (key, r.value)
                                   && forall k :: i < k < |ms| ==> ms[k].0 != key by {
        if r.Some? {
          var i :| 0 <= i < |init| && init[i] == (key, r.value) && forall k :: i < k < |init| ==> init[k].0 != key;
          assert ms[i] == init[i];
          forall k | i < k < |ms| ensures ms[k].0 != key {
            if k < |init| { assert ms[k] == init[k]; }
          }
        }
      }
      r
  }

  /** `value.key` for a parsed JSON value that is not null: undefined unless it is an object with that key. */
  function Property(j: Json, key: string): Option<Json> {
    if j.JObj? then LastMember(j.members, key) else None
  }

  /** Concatenation is associative (stated once, for the proofs that regroup appends). */
  lemma ConcatAssoc<T>(a: seq<T>, b: seq<T>, c: seq<T>)
    ensures a + b + c == a + (b + c)
  {
  }

  /** An HTTP response as the route handlers build it: a status and a JSON body. */
  datatype Response = Response(status: int, body: Json)

  /** The `{ error: message }` body both routes use for failures. */
  function ErrorBody(message: string): Json {
    JObj([("error", JStr(message))])
  }

  /** How a browser `fetch` ended: a thrown error, or a response and its body read with `res.json()`. */
  datatype FetchOutcome =
    | NetworkError(message: string)
    | Received(status: int, body: Result<Json, string>)

  /** `res.ok` of the fetch API: the status is in 200..299. */
  predicate IsOk(status: int) {
    200 <= status <= 299
  }
}
