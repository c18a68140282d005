/** JavaScript values as the request handlers receive them, JavaScript truthiness,
    and the String cast the document store applies to a String field. */
module Js {

  datatype Option<+T> = None | Some(value: T)

  /** A value read from a request body, a query string, a header or a decoded token.
      Objects and arrays are one opaque case; NaN is not modelled. */
  datatype Value = Undefined | Null | Bool(b: bool) | Num(n: int) | Str(s: string) | Obj

  /** `!!v`: the test behind every `if (!x)` guard in the handlers. */
  predicate Truthy(v: Value) {
    match v
    case Undefined => false
    case Null => false
    case Bool(b) => b
    case Num(n) => n != 0
    case Str(s) => s != ""
    case Obj => true
  }

  /** An optional string (a header, a query parameter, an environment variable,
      a metadata entry) that passes `if (x)`: present and not empty. */
  predicate Present(o: Option<string>) {
    o.Some? && o.value != ""
  }

  predicate StartsWith(s: string, prefix: string) {
    |prefix| <= |s| && s[..|prefix|] == prefix
  }

  function DigitChar(d: nat): char
    requires d < 10
  {
    "0123456789"[d]
  }

  function NatToDecimal(n: nat): (r: string)
    ensures |r| > 0
    decreases n
  {
    if n < 10 then [DigitChar(n)] else NatToDecimal(n / 10) + [DigitChar(n % 10)]
  }

  /** `String(n)` for an integer. */
  function IntToDecimal(n: int): string {
    if n < 0 then "-" + NatToDecimal(-n) else NatToDecimal(n)
  }

  /** The cast a String field applies to a value written into it or compared
      against it in a query: primitives become their text; undefined and null give
      no key, and so does the opaque object case, which stands for every
      non-primitive (arrays and query operators included). */
  function CastToString(v: Value): (r: Option<string>)
    ensures v.Str? ==> r == Some(v.s)
    ensures v.Obj? || v.Undefined? || v.Null? ==> r == None
  {
    match v
    case Str(s) => Some(s)
    case Num(n) => Some(IntToDecimal(n))
    case Bool(b) => Some(if b then "true" else "false")
    case _ => None
  }
}
