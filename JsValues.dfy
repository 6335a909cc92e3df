/**
 * The JavaScript values that a configuration entry or a reply field can hold,
 * with the two language rules the plugin leans on: truthiness (for `||` and `!`)
 * and conversion to a string (for `+` on strings).
 * Numbers are integers here; NaN and fractions are not modelled.
 */
module JsValues {

  datatype Value = Undefined | Null | Bool(b: bool) | Num(n: int) | Str(s: string)

  /** JavaScript truthiness: `undefined`, `null`, `false`, `0` and `""` are falsy. */
  predicate Truthy(v: Value) {
    match v
    case Undefined => false
    case Null => false
    case Bool(b) => b
    case Num(n) => n != 0
    case Str(s) => s != ""
  }

  /** The value of `v || d`. */
  function Or(v: Value, d: Value): Value {
    if Truthy(v) then v else d
  }

  function DigitChar(d: nat): (c: char)
    requires d < 10
    ensures '0' <= c <= '9'
  {
    ('0' as int + d) as char
  }

  /** The decimal spelling of a natural number, most significant digit first. */
  function DecimalDigits(n: nat): (r: string)
    ensures |r| > 0
    ensures forall i :: 0 <= i < |r| ==> '0' <= r[i] <= '9'
  {
    if n < 10 then [DigitChar(n)] else DecimalDigits(n / 10) + [DigitChar(n % 10)]
  }

  /**
   * What `"" + v` yields. A string is kept as it is; every other value becomes
   * a non-empty text that holds no '&', so it cannot open a new query parameter.
   */
  function ToJsString(v: Value): (r: string)
    ensures v.Str? ==> r == v.s
    ensures !v.Str? ==> r != "" && '&' !in r
  {
    match v
    case Undefined => "undefined"
    case Null => "null"
    case Bool(b) => if b then "true" else "false"
    case Num(n) => if n < 0 then "-" + DecimalDigits(-n) else DecimalDigits(n)
    case Str(s) => s
  }
}
