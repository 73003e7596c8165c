/** The part of JavaScript's number semantics the converter depends on: `Number(text)`
    for decimal text, division by zero, and comparisons in which NaN is never ordered. */
module JsNumber {
  import opened Text
  import opened Wrappers

  /** A JavaScript number. Finite values are kept exact; the sign of zero is not modelled. */
  datatype Num = Fin(r: real) | PosInf | NegInf | NaN

  /** `x <= c` */
  predicate LessEq(x: Num, c: real) {
    match x
    case Fin(r) => r <= c
    case NegInf => true
    case _ => false
  }

  /** `x < c` */
  predicate Less(x: Num, c: real) {
    match x
    case Fin(r) => r < c
    case NegInf => true
    case _ => false
  }

  /** `x >= c` */
  predicate GreaterEq(x: Num, c: real) {
    match x
    case Fin(r) => r >= c
    case PosInf => true
    case _ => false
  }

  /** What `if (x)` sees: 0 and NaN are falsy. */
  predicate Truthy(x: Num) {
    match x
    case Fin(r) => r != 0.0
    case NaN => false
    case _ => true
  }

  function Negate(x: Num): Num {
    match x
    case Fin(r) => Fin(-r)
    case PosInf => NegInf
    case NegInf => PosInf
    case NaN => NaN
  }

  /** `a / b`, with the IEEE rules for zero divisors and infinities. */
  function Divide(a: Num, b: Num): (q: Num)
    ensures a.Fin? && b.Fin? && b.r != 0.0 ==> q == Fin(a.r / b.r)
  {
    match (a, b)
    case (NaN, _) => NaN
    case (_, NaN) => NaN
    case (Fin(x), Fin(y)) =>
      if y != 0.0 then Fin(x / y) else if x > 0.0 then PosInf else if x < 0.0 then NegInf else NaN
    case (Fin(_), _) => Fin(0.0)
    case (PosInf, Fin(y)) => if y < 0.0 then NegInf else PosInf
    case (NegInf, Fin(y)) => if y < 0.0 then PosInf else NegInf
    case (_, _) => NaN
  }

  function Pow10(n: nat): (p: nat)
    ensures p >= 1
  {
    if n == 0 then 1 else 10 * Pow10(n - 1)
  }

  /** An unsigned decimal literal: digits, optionally with a fractional part, at least one digit. */
  function DecimalValue(u: string): Option<real> {
    var k := IndexOf(u, '.');
    if k == -1 then
      if u != "" && AllDigits(u) then Some(DigitsValue(u) as real) else None
    else
      var ip := u[..k];
      var fp := u[k + 1..];
      if (ip != "" || fp != "") && AllDigits(ip) && AllDigits(fp)
      then Some(DigitsValue(ip) as real + DigitsValue(fp) as real / Pow10(|fp|) as real)
      else None
  }

  function UnsignedValue(u: string): Num {
    if u == "Infinity" then PosInf
    else match DecimalValue(u)
      case Some(v) => Fin(v)
      case None => NaN
  }

  /** `Number(s)` for decimal text: surrounding blanks are ignored, blank text is 0,
      anything that is not a signed decimal literal or Infinity is NaN. */
  function ParseNumber(s: string): Num {
    var t := Trim(s);
    if t == "" then Fin(0.0)
    else if t[0] == '-' then Negate(UnsignedValue(t[1..]))
    else if t[0] == '+' then UnsignedValue(t[1..])
    else UnsignedValue(t)
  }

  /** A run of digits reads as its value. */
  lemma ParseDigits(d: string)
    requires d != "" && AllDigits(d)
    ensures ParseNumber(d) == Fin(DigitsValue(d) as real)
  {
    TrimUnchanged(d);
    assert d[0] != '-' && d[0] != '+';
    assert d != "Infinity" by { assert !IsDigit('I'); }
  }
}
