/** The values the emitter reads from and writes to the shared store, with
    the two JavaScript conversions it relies on: truthiness (`x ? … : …`,
    `if (id)`) and `String(x)`. */
module Values {
  import opened Strings

  /** A stored value. Numbers are integers; JSON objects are not modelled. */
  datatype Value =
    | Undefined
    | Null
    | Bool(b: bool)
    | Num(n: int)
    | Str(s: string)
    | List(items: seq<Value>)

  /** JavaScript truthiness (`NaN` aside): `undefined`, `null`, `false`, `0`
      and `''` are falsy; every array, even an empty one, is truthy. */
  predicate Truthy(v: Value)
  {
    match v
    case Undefined => false
    case Null => false
    case Bool(b) => b
    case Num(n) => n != 0
    case Str(s) => s != ""
    case List(_) => true
  }

  function DigitChar(d: nat): (c: char)
    requires d < 10
    ensures '0' <= c <= '9'
  {
    "0123456789"[d]
  }

  /** Decimal notation of a natural number, most significant digit first. */
  function NatToString(n: nat): (r: string)
    ensures |r| >= 1
    ensures forall i :: 0 <= i < |r| ==> '0' <= r[i] <= '9'
    decreases n
  {
    if n < 10 then [DigitChar(n)] else NatToString(n / 10) + [DigitChar(n % 10)]
  }

  /** `String(n)` for an integer. */
  function IntToString(n: int): string
  {
    if n < 0 then "-" + NatToString(-n) else NatToString(n)
  }

  /** `String(v)`. An array converts element by element, joined by `,`,
      with `null` and `undefined` elements written as the empty string. */
  function ToJsString(v: Value): string
    decreases v
  {
    match v
    case Undefined => "undefined"
    case Null => "null"
    case Bool(b) => if b then "true" else "false"
    case Num(n) => IntToString(n)
    case Str(s) => s
    case List(items) =>
      Join(seq(|items|, i requires 0 <= i < |items| =>
             if items[i].Undefined? || items[i].Null? then "" else ToJsString(items[i])), ',')
  }
}
