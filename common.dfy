/** Building blocks shared by the server, the client and the prediction
    services: optional values, results, JSON values and decimal text. */
module Common {

  datatype Option<+T> = None | Some(value: T)

  datatype Result<+T, +E> = Ok(value: T) | Err(error: E)

  /** A JSON value as it crosses the HTTP boundary. A JavaScript `Date`
      is kept as its milliseconds since the epoch. */
  datatype Json =
    | JNull
    | JBool(b: bool)
    | JNum(n: real)
    | JStr(s: string)
    | JTime(ms: int)
    | JArr(items: seq<Json>)
    | JObj(fields: map<string, Json>)

  /** JavaScript truthiness of a JSON value (`NaN` is not representable). */
  predicate Truthy(j: Json) {
    match j
    case JNull => false
    case JBool(b) => b
    case JNum(n) => n != 0.0
    case JStr(s) => |s| > 0
    case _ => true
  }

  function Min(a: int, b: int): int {
    if a <= b then a else b
  }

  // ---------------------------------------------------------------------
  // Decimal text, as JavaScript prints non-negative integers and
  // `toFixed(1)`.
  // ---------------------------------------------------------------------

  predicate IsDigit(c: char) {
    '0' <= c <= '9'
  }

  function DigitChar(d: nat): (c: char)
    requires d < 10
    ensures IsDigit(c)
  {
    ('0' as int + d) as char
  }

  function DigitValue(c: char): nat {
    if IsDigit(c) then c as int - '0' as int else 0
  }

  /** The decimal numeral of `n`, without leading zeros. */
  function NatToString(n: nat): (s: string)
    ensures |s| > 0
    ensures forall i :: 0 <= i < |s| ==> IsDigit(s[i])
    ensures s[0] == '0' ==> n == 0
  {
    if n < 10 then [DigitChar(n)] else NatToString(n / 10) + [DigitChar(n % 10)]
  }

  /** The number a string of decimal digits denotes (the reader of `NatToString`). */
  function DigitsValue(s: string): nat {
    if s == [] then 0 else DigitsValue(s[..|s| - 1]) * 10 + DigitValue(s[|s| - 1])
  }

  lemma {:induction false} NatToStringRoundTrip(n: nat)
    ensures DigitsValue(NatToString(n)) == n
  {
    var s := NatToString(n);
    if n >= 10 {
      NatToStringRoundTrip(n / 10);
      assert s[..|s| - 1] == NatToString(n / 10);
    }
  }

  /** `(t / 10).toFixed(1)` for an integer number of tenths `t`. */
  function Fixed1(t: int): (s: string)
    ensures |s| >= 3 && s[|s| - 2] == '.'
    ensures (s[0] == '-') <==> t < 0
  {
    if t < 0 then "-" + UnsignedFixed1(-t) else UnsignedFixed1(t)
  }

  function UnsignedFixed1(t: nat): (s: string)
    ensures |s| >= 3 && s[|s| - 2] == '.' && IsDigit(s[0])
  {
    NatToString(t / 10) + "." + [DigitChar(t % 10)]
  }

  /** The number of tenths a `toFixed(1)` numeral denotes (the reader of `Fixed1`). */
  function ParseFixed1(s: string): int {
    if |s| > 0 && s[0] == '-' then -(ParseUnsignedFixed1(s[1..]) as int) else ParseUnsignedFixed1(s)
  }

  function ParseUnsignedFixed1(s: string): nat {
    if |s| < 2 then 0 else DigitsValue(s[..|s| - 2]) * 10 + DigitValue(s[|s| - 1])
  }

  lemma Fixed1RoundTrip(t: int)
    ensures ParseFixed1(Fixed1(t)) == t
  {
    var u := if t < 0 then -t else t;
    var s := UnsignedFixed1(u);
    NatToStringRoundTrip(u / 10);
    assert s[..|s| - 2] == NatToString(u / 10);
    assert DigitValue(s[|s| - 1]) == u % 10;
    if t < 0 {
      assert ("-" + s)[1..] == s;
    }
  }
}
