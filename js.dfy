/** The few JavaScript values the helpers of index.js receive as arguments,
    with the two JavaScript operations they apply to them: truthiness (the
    `if (x)` and `x ? a : b` tests) and string conversion (`x.toString()`). */
module Js {

  /** An argument as the helpers see it. Numbers are limited to integers,
      functions are known only by an identity, and an `Error` object by its
      `name` and `message`. */
  datatype Value =
    | Undefined
    | Null
    | Bool(b: bool)
    | Num(n: int)
    | Str(s: string)
    | ErrorObj(name: string, message: string)
    | Fn(id: nat)

  /** JavaScript truthiness: `undefined`, `null`, `false`, `0` and the empty
      string are falsy; everything else, functions and objects included, is truthy. */
  predicate Truthy(v: Value): (r: bool)
    ensures !r <==> v in {Undefined, Null, Bool(false), Num(0), Str("")}
  {
    match v
    case Undefined => false
    case Null => false
    case Bool(b) => b
    case Num(n) => n != 0
    case Str(s) => s != ""
    case ErrorObj(_, _) => true
    case Fn(_) => true
  }

  /** The decimal digit for 0 <= d < 10. */
  function Digit(d: nat): (c: char)
    requires d < 10
    ensures '0' <= c <= '9'
  {
    "0123456789"[d]
  }

  /** How JavaScript prints a non-negative integer: decimal digits, no leading zero. */
  function NatToString(n: nat): (r: string)
    ensures r != []
    ensures forall k :: 0 <= k < |r| ==> '0' <= r[k] <= '9'
    ensures |r| > 1 ==> r[0] != '0'
    decreases n
  {
    if n < 10 then [Digit(n)] else NatToString(n / 10) + [Digit(n % 10)]
  }

  /** How JavaScript prints an integer: a minus sign before a negative one,
      then the decimal digits of its magnitude. */
  function IntToString(i: int): (r: string)
    ensures r != []
    ensures (r[0] == '-') <==> (i < 0)
    ensures var digits := if i < 0 then r[1..] else r;
      digits != [] && (forall k :: 0 <= k < |digits| ==> '0' <= digits[k] <= '9') &&
      DecimalValue(digits) == (if i < 0 then -i else i)
  {
    var magnitude: nat := if i < 0 then -i else i;
    NatToStringRoundTrip(magnitude);
    if i < 0 then "-" + NatToString(magnitude) else NatToString(magnitude)
  }

  /** `Error.prototype.toString`: the name, then ": " and the message, either
      part left out (with its separator) when it is empty. */
  function ErrorToString(name: string, message: string): (r: string)
    ensures name != "" && message != "" ==> r == name + ": " + message
    ensures name == "" ==> r == message
    ensures message == "" ==> r == name
  {
    if name == "" then message
    else if message == "" then name
    else name + ": " + message
  }

  /** The string form of a value, `String(v)`: for every value but
      `undefined` and `null` this is also `v.toString()` (which throws on
      those two). A function's string form, its source text, is not modelled. */
  function ToString(v: Value): (r: string)
    requires !v.Fn?
    ensures v.Str? ==> r == v.s
    ensures v.Num? ==> r == IntToString(v.n)
    ensures v.ErrorObj? ==> r == ErrorToString(v.name, v.message)
  {
    match v
    case Undefined => "undefined"
    case Null => "null"
    case Bool(b) => if b then "true" else "false"
    case Num(n) => IntToString(n)
    case Str(s) => s
    case ErrorObj(name, message) => ErrorToString(name, message)
  }

  /** The decimal printing is read back by the usual positional value, so no
      two non-negative integers print alike. */
  function DecimalValue(s: string): (n: nat)
    requires forall k :: 0 <= k < |s| ==> '0' <= s[k] <= '9'
    decreases |s|
  {
    if s == [] then 0 else 10 * DecimalValue(s[..|s| - 1]) + (s[|s| - 1] as int - '0' as int)
  }

  lemma {:induction false} NatToStringRoundTrip(n: nat)
    ensures DecimalValue(NatToString(n)) == n
    decreases n
  {
    var r := NatToString(n);
    if n >= 10 {
      NatToStringRoundTrip(n / 10);
      assert r[..|r| - 1] == NatToString(n / 10);
    }
  }

  lemma NatToStringInjective(m: nat, n: nat)
    requires NatToString(m) == NatToString(n)
    ensures m == n
  {
    NatToStringRoundTrip(m);
    NatToStringRoundTrip(n);
  }
}
