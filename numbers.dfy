/**
 * JavaScript numbers as the screens use them: `parseFloat` on the amount typed
 * into a text field, subtraction from the balance, and the decimal rendering of
 * a counter inside a template literal. Values are exact reals; NaN is kept
 * because `parseFloat` produces it for text that holds no number.
 */
module Numbers {
  import Text

  datatype Number = Finite(value: real) | NaN

  /** `a - b`: NaN as soon as either side is NaN. */
  function Minus(a: Number, b: Number): (r: Number)
    ensures r.Finite? <==> a.Finite? && b.Finite?
    ensures r.Finite? ==> r.value + b.value == a.value
  {
    if a.Finite? && b.Finite? then Finite(a.value - b.value) else NaN
  }

  predicate IsDigit(c: char) {
    '0' <= c <= '9'
  }

  predicate AllDigits(s: string) {
    forall i :: 0 <= i < |s| ==> IsDigit(s[i])
  }

  function DigitValue(c: char): (d: nat)
    requires IsDigit(c)
    ensures d < 10
  {
    c as int - '0' as int
  }

  function DigitChar(d: nat): (c: char)
    requires d < 10
    ensures IsDigit(c) && DigitValue(c) == d
  {
    ('0' as int + d) as char
  }

  /** The longest run of digits at the start of `s`. */
  function DigitPrefix(s: string): (r: string)
    ensures |r| <= |s| && r == s[..|r|] && AllDigits(r)
    ensures |r| == |s| || !IsDigit(s[|r|])
  {
    if s != [] && IsDigit(s[0]) then [s[0]] + DigitPrefix(s[1..]) else []
  }

  /** The value of a string of decimal digits, most significant first. */
  function DigitsValue(ds: string): nat
    requires AllDigits(ds)
  {
    if ds == [] then 0 else DigitsValue(ds[..|ds| - 1]) * 10 + DigitValue(ds[|ds| - 1])
  }

  /** The value of the digits after a decimal point: `0.d1d2d3...`. */
  function FractionValue(ds: string): (r: real)
    requires AllDigits(ds)
    ensures 0.0 <= r < 1.0
  {
    if ds == [] then 0.0 else (DigitValue(ds[0]) as real + FractionValue(ds[1..])) / 10.0
  }

  function Pow10Nat(n: nat): (r: nat)
    ensures r >= 1
  {
    if n == 0 then 1 else 10 * Pow10Nat(n - 1)
  }

  /** 10 raised to a whole, possibly negative, exponent. */
  function Pow10(e: int): (r: real)
    ensures r > 0.0
  {
    if e >= 0 then Pow10Nat(e) as real else 1.0 / Pow10Nat(-e) as real
  }

  /** Strips a leading `+` or `-`; says whether it was `-`. */
  function SplitSign(s: string): (r: (bool, string))
    ensures r.1 == s || (|s| > 0 && r.1 == s[1..])
  {
    if |s| > 0 && (s[0] == '+' || s[0] == '-') then (s[0] == '-', s[1..]) else (false, s)
  }

  /**
   * The exponent of an `e`/`E` suffix (`e5`, `E-3`, `e+2`) at the start of `s`,
   * or 0 when `s` does not start with a complete one.
   */
  function ExponentOf(s: string): int {
    if |s| > 0 && (s[0] == 'e' || s[0] == 'E') then
      var (negative, body) := SplitSign(s[1..]);
      var ds := DigitPrefix(body);
      if ds == [] then 0 else if negative then -(DigitsValue(ds) as int) else DigitsValue(ds)
    else 0
  }

  /**
   * The unsigned part of a decimal literal at the start of `u`: digits [. digits]
   * [exponent] with at least one digit in the mantissa; NaN when there is none.
   */
  function ParseUnsigned(u: string): Number {
    var whole := DigitPrefix(u);
    var afterWhole := u[|whole|..];
    var hasPoint := |afterWhole| > 0 && afterWhole[0] == '.';
    var fraction := if hasPoint then DigitPrefix(afterWhole[1..]) else [];
    if whole == [] && fraction == [] then NaN
    else
      var afterMantissa := if hasPoint then afterWhole[1 + |fraction|..] else afterWhole;
      Finite((DigitsValue(whole) as real + FractionValue(fraction)) * Pow10(ExponentOf(afterMantissa)))
  }

  /**
   * `parseFloat(s)`: skips leading white space and an optional sign, then reads
   * the longest decimal literal that follows; NaN when there is none.
   */
  function ParseFloat(s: string): Number {
    var (negative, u) := SplitSign(Text.TrimStart(s));
    match ParseUnsigned(u)
    case NaN => NaN
    case Finite(m) => Finite(if negative then -m else m)
  }

  /** After the white space and sign that `parseFloat` skips, `s` spells `Infinity`. */
  predicate SpellsInfinity(s: string) {
    var u := SplitSign(Text.TrimStart(s)).1;
    |u| >= 8 && u[..8] == "Infinity"
  }

  /**
   * Text that contains no digit at all, and does not spell `Infinity` (which this
   * model does not read), does not parse: `parseFloat` gives NaN.
   */
  lemma NoDigitIsNaN(s: string)
    requires forall i :: 0 <= i < |s| ==> !IsDigit(s[i])
    requires !SpellsInfinity(s)
    ensures ParseFloat(s) == NaN
  {
  }

  /** `String(n)` for a natural number: its decimal digits, without leading zeros. */
  function NatToString(n: nat): (r: string)
    ensures |r| >= 1 && AllDigits(r)
    ensures |r| > 1 ==> r[0] != '0'
  {
    if n < 10 then [DigitChar(n)] else NatToString(n / 10) + [DigitChar(n % 10)]
  }

  /** Reading back the digits of `NatToString(n)` gives `n`. */
  lemma {:induction false} DigitsValueOfNatToString(n: nat)
    ensures DigitsValue(NatToString(n)) == n
  {
    var r := NatToString(n);
    if n >= 10 {
      DigitsValueOfNatToString(n / 10);
      assert r[..|r| - 1] == NatToString(n / 10);
    }
  }

  /** Rendering is one-to-one: different numbers never print the same. */
  lemma NatToStringInjective(m: nat, n: nat)
    requires NatToString(m) == NatToString(n)
    ensures m == n
  {
    DigitsValueOfNatToString(m);
    DigitsValueOfNatToString(n);
  }

  /** A non-empty run of digits, and nothing else, parses to its value. */
  lemma ParseUnsignedOfDigits(s: string)
    requires s != [] && AllDigits(s)
    ensures ParseUnsigned(s) == Finite(DigitsValue(s) as real)
  {
    assert DigitPrefix(s) == s;
    assert s[|s|..] == [];
    assert ExponentOf([]) == 0;
    assert Pow10(0) == 1.0;
  }

  /** `parseFloat(String(n)) == n`: the rendering of a natural number parses back to it. */
  lemma ParseFloatOfNatToString(n: nat)
    ensures ParseFloat(NatToString(n)) == Finite(n as real)
  {
    var s := NatToString(n);
    assert Text.TrimStart(s) == s by {
      assert !Text.IsJsSpace(s[0]);
    }
    assert SplitSign(s) == (false, s);
    ParseUnsignedOfDigits(s);
    DigitsValueOfNatToString(n);
  }
}
