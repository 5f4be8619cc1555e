/**
 * The JavaScript number conversions the front end applies to form text:
 * `parseFloat`, `parseInt`, `Number(...)` and `String(number)`, on decimal
 * notation. A result of `None` is NaN.
 */
module Numbers {
  import opened Wrappers
  import Text

  predicate IsDigit(c: char) {
    '0' <= c <= '9'
  }

  function DigitValue(c: char): nat
    requires IsDigit(c)
  {
    c as int - '0' as int
  }

  function DigitChar(d: nat): (c: char)
    requires d < 10
    ensures IsDigit(c) && DigitValue(c) == d
  {
    ('0' as int + d) as char
  }

  predicate AllDigits(s: string) {
    forall i :: 0 <= i < |s| ==> IsDigit(s[i])
  }

  /** Length of the longest run of digits at the start of `s`. */
  function DigitRun(s: string): (n: nat)
    ensures n <= |s| && AllDigits(s[..n])
    ensures n == |s| || !IsDigit(s[n])
  {
    if s != [] && IsDigit(s[0]) then 1 + DigitRun(s[1..]) else 0
  }

  /** The natural number a run of decimal digits denotes. */
  function Value(d: string): nat
    requires AllDigits(d)
  {
    if d == [] then 0 else 10 * Value(d[..|d| - 1]) + DigitValue(d[|d| - 1])
  }

  /** The fraction `0.d₁d₂…` that digits after a decimal point denote. */
  function Fraction(d: string): (r: real)
    requires AllDigits(d)
    ensures 0.0 <= r < 1.0
  {
    if d == [] then 0.0 else (DigitValue(d[0]) as real + Fraction(d[1..])) / 10.0
  }

  /** An optional leading sign: whether it is '-', and what follows it. */
  function Sign(s: string): (bool, string) {
    if s != [] && (s[0] == '-' || s[0] == '+') then (s[0] == '-', s[1..]) else (false, s)
  }

  function Negate(neg: bool, x: real): real {
    if neg then -x else x
  }

  /**
   * The longest decimal literal at the start of `t`: digits, optionally a point and more
   * digits, with at least one digit overall. Returns its value and its length.
   */
  function DecimalPrefix(t: string): (r: Option<(real, nat)>)
    ensures r.Some? ==> 0.0 <= r.value.0 && 0 < r.value.1 <= |t|
  {
    var n := DigitRun(t);
    var point := n < |t| && t[n] == '.';
    var rest := if point then t[n + 1..] else [];
    var f := DigitRun(rest);
    if n == 0 && f == 0 then None
    else Some((Value(t[..n]) as real + Fraction(rest[..f]), if point then n + 1 + f else n))
  }

  /** `parseFloat(s)`: leading white space skipped, the longest numeric prefix read. */
  function ParseFloat(s: string): Option<real> {
    var (neg, t) := Sign(Text.TrimStart(s));
    match DecimalPrefix(t)
    case None => None
    case Some((x, _)) => Some(Negate(neg, x))
  }

  /** `parseInt(s)` in base ten: leading white space skipped, the leading digits read. */
  function ParseInt(s: string): Option<int> {
    var (neg, t) := Sign(Text.TrimStart(s));
    var n := DigitRun(t);
    var v: int := if n == 0 then 0 else Value(t[..n]);
    if n == 0 then None else Some(if neg then -v else v)
  }

  /** `Number(s)`: white space at both ends ignored, "" is 0, anything else must be numeric throughout. */
  function NumberOf(s: string): Option<real> {
    var t := Text.Trim(s);
    if t == [] then Some(0.0)
    else
      var (neg, u) := Sign(t);
      match DecimalPrefix(u)
      case Some((x, len)) => if len == |u| then Some(Negate(neg, x)) else None
      case None => None
  }

  /** `x || 0` on a number: NaN becomes 0. */
  function OrZero(x: Option<real>): real {
    if x.Some? then x.value else 0.0
  }

  /** JavaScript truthiness of a number: neither NaN nor 0. */
  predicate TruthyNumber(x: Option<real>) {
    x.Some? && x.value != 0.0
  }

  /** The decimal digits of `n`, without leading zeros. */
  function NatToString(n: nat): (s: string)
    ensures |s| > 0 && AllDigits(s)
    ensures n > 0 ==> s[0] != '0'
  {
    if n < 10 then [DigitChar(n)] else NatToString(n / 10) + [DigitChar(n % 10)]
  }

  /** The digits of the fraction `0 <= f < 1`, stopping when nothing remains or after `fuel` digits. */
  function FractionDigits(f: real, fuel: nat): (s: string)
    requires 0.0 <= f < 1.0
    ensures AllDigits(s)
    decreases fuel
  {
    if fuel == 0 || f == 0.0 then []
    else
      var d := (f * 10.0).Floor;
      [DigitChar(d)] + FractionDigits(f * 10.0 - d as real, fuel - 1)
  }

  /** `String(x)` for a number in plain decimal notation. */
  function NumberText(x: real): string {
    var a := if x < 0.0 then -x else x;
    var whole := a.Floor;
    var frac := FractionDigits(a - whole as real, 20);
    (if x < 0.0 then "-" else "") + NatToString(whole) + (if frac == [] then "" else "." + frac)
  }

  /** Reading back the digits of a natural number gives that number. */
  lemma {:induction false} ValueNatToString(n: nat)
    ensures Value(NatToString(n)) == n
  {
    if n >= 10 {
      ValueNatToString(n / 10);
      var s := NatToString(n);
      assert s[..|s| - 1] == NatToString(n / 10);
    }
  }

  /** `parseInt(String(n)) == n` for a natural number `n`. */
  lemma ParseIntNatToString(n: nat)
    ensures ParseInt(NatToString(n)) == Some(n)
  {
    var s := NatToString(n);
    assert Text.TrimStart(s) == s;
    assert Sign(s) == (false, s);
    DigitRunAll(s);
    assert s[..|s|] == s;
    ValueNatToString(n);
  }

  /** `parseFloat(String(n)) == n` for a natural number `n`. */
  lemma ParseFloatNatToString(n: nat)
    ensures ParseFloat(NatToString(n)) == Some(n as real)
  {
    var s := NatToString(n);
    assert Text.TrimStart(s) == s;
    assert Sign(s) == (false, s);
    DecimalPrefixDigits(s);
    ValueNatToString(n);
  }

  /** `Number(String(n)) == n` for a natural number `n`. */
  lemma NumberOfNatToString(n: nat)
    ensures NumberOf(NatToString(n)) == Some(n as real)
  {
    NumberOfDigits(NatToString(n));
    ValueNatToString(n);
  }

  /** `Number` of a run of digits is its value. */
  lemma NumberOfDigits(s: string)
    requires |s| > 0 && AllDigits(s)
    ensures NumberOf(s) == Some(Value(s) as real)
  {
    assert IsDigit(s[0]) && IsDigit(s[|s| - 1]);
    Text.TightTrim(s);
    assert Sign(s) == (false, s);
    DecimalPrefixDigits(s);
  }

  /** A run of digits alone is a decimal literal denoting its value. */
  lemma DecimalPrefixDigits(s: string)
    requires |s| > 0 && AllDigits(s)
    ensures DecimalPrefix(s) == Some((Value(s) as real, |s|))
  {
    DigitRunAll(s);
    assert s[..|s|] == s;
  }

  /** `String` of a whole number is its digits. */
  lemma NumberTextNat(n: nat)
    ensures NumberText(n as real) == NatToString(n)
  {
    assert (n as real).Floor == n;
  }

  lemma {:induction false} DigitRunAll(s: string)
    requires AllDigits(s)
    ensures DigitRun(s) == |s|
  {
    if s != [] {
      DigitRunAll(s[1..]);
    }
  }
}
