/** The part of `fmt.Sprint` the core relies on: how a bound argument is
    rendered as the text of a span attribute, and decimal integers. */
module Format {

  /** A bound query argument as the core sees it (an `interface{}`). */
  datatype Value =
    | IntVal(i: int)
    | StrVal(s: string)
    | BoolVal(b: bool)
    | NilVal
    | ListVal(items: seq<Value>)   // a slice such as `[]interface{}`
    | Rendered(text: string)       // any other value, with the text `%v` gives it

  predicate IsDigit(c: char) {
    '0' <= c <= '9'
  }

  predicate AllDigits(s: string) {
    forall i :: 0 <= i < |s| ==> IsDigit(s[i])
  }

  function Digit(d: nat): (c: char)
    requires d < 10
    ensures IsDigit(c) && c as int - '0' as int == d
  {
    (d + '0' as int) as char
  }

  /** Decimal representation of `n`, most significant digit first. */
  function NatToString(n: nat): (s: string)
    ensures |s| >= 1 && AllDigits(s)
    ensures n < 10 <==> |s| == 1
    decreases n
  {
    if n < 10 then [Digit(n)] else NatToString(n / 10) + [Digit(n % 10)]
  }

  /** The value of a string of decimal digits: the inverse of NatToString. */
  function ParseNat(s: string): nat
    requires AllDigits(s)
  {
    if s == [] then 0 else ParseNat(s[..|s| - 1]) * 10 + (s[|s| - 1] as int - '0' as int)
  }

  lemma {:induction false} ParseNatToString(n: nat)
    ensures ParseNat(NatToString(n)) == n
  {
    var s := NatToString(n);
    if n >= 10 {
      assert s[..|s| - 1] == NatToString(n / 10);
      ParseNatToString(n / 10);
    }
  }

  /** Distinct indexes give distinct decimal strings, so `param_<i>` keys never collide. */
  lemma NatToStringInjective(m: nat, n: nat)
    ensures NatToString(m) == NatToString(n) ==> m == n
  {
    ParseNatToString(m);
    ParseNatToString(n);
  }

  function IntToString(i: int): (s: string)
    ensures |s| >= 1
  {
    if i < 0 then "-" + NatToString(-i) else NatToString(i)
  }

  /** `fmt.Sprint(v)` for a single operand. */
  function Sprint(v: Value): string
    decreases v
  {
    match v
    case IntVal(i) => IntToString(i)
    case StrVal(s) => s
    case BoolVal(b) => if b then "true" else "false"
    case NilVal => "<nil>"
    case ListVal(items) => "[" + SprintItems(items) + "]"
    case Rendered(text) => text
  }

  /** The elements of a slice as `%v` prints them: separated by one space. */
  function SprintItems(items: seq<Value>): string
    decreases items
  {
    if items == [] then ""
    else if |items| == 1 then Sprint(items[0])
    else Sprint(items[0]) + " " + SprintItems(items[1..])
  }
}
