/** The few PHP value semantics the application code relies on: optional values,
    the JSON-like values stored in request data and `input_parameters`, PHP's
    `empty()` on strings, the null-coalescing `??` on arrays, and the conversion
    of an integer to its decimal string (string interpolation, coercion to a
    `string` parameter). */
module Php {

  datatype Option<+T> = None | Some(value: T) {
    function GetOr(default: T): T {
      match this
      case Some(v) => v
      case None => default
    }
  }

  /** A scalar as it appears in validated request data or in a JSON column. */
  datatype Json = JStr(str: string) | JInt(num: int) | JNull

  /** An associative PHP array with string keys, e.g. `input_parameters`. */
  type Params = map<string, Json>

  /** PHP `empty()` on a string: the empty string and "0" are empty. */
  predicate EmptyString(s: string) {
    s == "" || s == "0"
  }

  /** PHP `empty()` on an optional string (null is empty). */
  predicate Empty(v: Option<string>) {
    v.None? || EmptyString(v.value)
  }

  /** `$m[$key] ?? ...`: a missing key and a null value both fall through. */
  function Coalesce(m: Params, key: string): (r: Option<Json>)
    ensures r.None? <==> key !in m || m[key] == JNull
    ensures r.Some? ==> r.value == m[key] && r.value != JNull
  {
    if key in m && m[key] != JNull then Some(m[key]) else None
  }

  /** `$m[$key] ?? $default` where the default is itself a value. */
  function CoalesceOr(m: Params, key: string, default: Json): (r: Json)
    ensures key in m && m[key] != JNull ==> r == m[key]
    ensures key !in m || m[key] == JNull ==> r == default
  {
    Coalesce(m, key).GetOr(default)
  }

  function Digit(d: int): (c: char)
    requires 0 <= d < 10
    ensures '0' <= c <= '9'
    ensures c == '0' <==> d == 0
  {
    "0123456789"[d]
  }

  /** Decimal digits of a natural number, most significant first, no leading zero. */
  function NatDigits(n: nat): (s: string)
    ensures 1 <= |s|
    ensures forall i :: 0 <= i < |s| ==> '0' <= s[i] <= '9'
    ensures n >= 10 ==> |s| >= 2
    ensures s[0] == '0' <==> n == 0
  {
    if n < 10 then [Digit(n)] else NatDigits(n / 10) + [Digit(n % 10)]
  }

  /** How PHP renders an integer in a string (`"{$n}"`, `(string) $n`). */
  function DecimalString(n: int): string {
    if n < 0 then "-" + NatDigits(-n) else NatDigits(n)
  }

  /** The integer 0 renders as the string "0" and no other integer does; so
      converting an integer to a string keeps PHP's `empty()` verdict
      (`empty(0)` and `empty("0")` are both true, every other integer is non-empty). */
  lemma DecimalStringEmpty(n: int)
    ensures EmptyString(DecimalString(n)) <==> n == 0
  {
    if n < 0 {
      assert DecimalString(n)[0] == '-';
    } else if n >= 10 {
      assert |DecimalString(n)| >= 2;
    }
  }

  /** PHP's coercion of a scalar to `string`, as when a parameter value is passed to a
      `string` argument or interpolated. */
  function AsString(v: Json): (s: string)
    ensures v.JStr? ==> s == v.str
    ensures v.JNull? ==> s == ""
  {
    match v
    case JStr(t) => t
    case JInt(n) => DecimalString(n)
    case JNull => ""
  }

  /** PHP `empty()` on a scalar: null, "", "0" and the integer 0 are empty. */
  predicate JsonEmpty(v: Json) {
    match v
    case JNull => true
    case JStr(s) => EmptyString(s)
    case JInt(n) => n == 0
  }

  /** A scalar is empty exactly when the text it is interpolated as is empty. */
  lemma JsonEmptyAgreesWithText(v: Json)
    ensures JsonEmpty(v) <==> EmptyString(AsString(v))
  {
    if v.JInt? {
      DecimalStringEmpty(v.num);
    }
  }

  /** `$m[$key] ?? $default` passed on as a string. */
  function StringOr(m: Params, key: string, default: string): (s: string)
    ensures key !in m || m[key] == JNull ==> s == default
    ensures key in m && m[key].JStr? ==> s == m[key].str
  {
    match Coalesce(m, key)
    case None => default
    case Some(v) => AsString(v)
  }
}
