/**
 * Point payloads: string-keyed maps of scalar values, as stored beside each
 * point in the vector store, together with the two Python operations the
 * matching code applies to them, truthiness (`not v`) and `str(v)`.
 */
module Payloads {

  datatype Value = Str(s: string) | Int(i: int) | Bool(b: bool) | Null

  type Payload = map<string, Value>

  /** Python truthiness of a payload value. */
  predicate Truthy(v: Value) {
    match v
    case Str(s) => s != ""
    case Int(i) => i != 0
    case Bool(b) => b
    case Null => false
  }

  function Digit(d: nat): char
    requires d < 10
  {
    "0123456789"[d]
  }

  /** The number a string of decimal digits denotes, most significant digit first. */
  function DigitsValue(s: string): int
    decreases |s|
  {
    if s == [] then 0 else DigitsValue(s[..|s| - 1]) * 10 + (s[|s| - 1] as int - '0' as int)
  }

  /**
   * Decimal rendering of a natural number, as Python's `str` writes it:
   * digits only, denoting `n`, with no leading zero.
   */
  function NatToString(n: nat): (s: string)
    ensures s != []
    ensures forall k :: 0 <= k < |s| ==> '0' <= s[k] <= '9'
    ensures DigitsValue(s) == n
    ensures s[0] == '0' ==> s == "0"
  {
    if n < 10 then [Digit(n)] else NatToString(n / 10) + [Digit(n % 10)]
  }

  /** Python's `str(v)` for a payload value. */
  function Show(v: Value): string {
    match v
    case Str(s) => s
    case Int(i) => if i < 0 then "-" + NatToString(-i) else NatToString(i)
    case Bool(b) => if b then "True" else "False"
    case Null => "None"
  }
}
