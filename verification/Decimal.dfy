/** Numbers as the program prints and reads them: integers, two-decimal fixed notation
    (`format_double`) and the digit runs that `stod` and `stoll` convert. */
module Decimal {
  import opened Text

  /** A finite `double` as an exact value. The sign is kept apart from the magnitude because
      negative zero prints as `-0.00`. */
  datatype SignedReal = SignedReal(negative: bool, magnitude: real) {
    function Value(): real {
      if negative then -magnitude else magnitude
    }
  }

  type Double = d: SignedReal | d.magnitude >= 0.0 witness SignedReal(false, 0.0)

  const ZERO: Double := SignedReal(false, 0.0)

  function FromReal(x: real): (d: Double)
    ensures d.Value() == x
  {
    if x < 0.0 then SignedReal(true, -x) else SignedReal(false, x)
  }

  // ---- decimal digits -----------------------------------------------------------

  function Digit(d: nat): (c: char)
    requires d < 10
    ensures IsDigit(c) && DigitValue(c) == d
  {
    ('0' as int + d) as char
  }

  function DigitValue(c: char): (d: nat)
    ensures IsDigit(c) ==> d < 10
  {
    if IsDigit(c) then c as int - '0' as int else 0
  }

  function NatText(n: nat): (s: string)
    ensures s != [] && All(s, IsDigit)
    ensures |s| > 1 ==> s[0] != '0'
  {
    if n < 10 then [Digit(n)] else NatText(n / 10) + [Digit(n % 10)]
  }

  function NatOf(s: string): nat {
    if s == [] then 0 else NatOf(s[..|s| - 1]) * 10 + DigitValue(s[|s| - 1])
  }

  lemma {:induction false} NatRoundTrip(n: nat)
    ensures NatOf(NatText(n)) == n
  {
    if n >= 10 {
      NatRoundTrip(n / 10);
      var s := NatText(n);
      assert s[..|s| - 1] == NatText(n / 10);
    }
  }

  function IntText(n: int): string {
    if n < 0 then "-" + NatText(-n) else NatText(n)
  }

  // ---- unsigned and signed decimal tokens ---------------------------------------

  /** How far `[0-9]+(?:\.[0-9]+)?` reaches into `s`; zero when it does not match. */
  function DecimalSpan(s: string): (n: nat)
    ensures n <= |s|
  {
    var i := Span(s, IsDigit);
    if i == 0 then 0
    else if i + 1 < |s| && s[i] == '.' && IsDigit(s[i + 1]) then i + 1 + Span(s[i + 1..], IsDigit)
    else i
  }

  /** The language of that pattern, stated without scanning. */
  ghost predicate IsDecimal(s: string) {
    exists whole, fraction :: DecimalParts(s, whole, fraction)
  }

  ghost predicate DecimalParts(s: string, whole: string, fraction: string) {
    && whole != [] && All(whole, IsDigit) && All(fraction, IsDigit)
    && s == if fraction == [] then whole else whole + "." + fraction
  }

  /** The greedy scan takes a whole token when what follows cannot extend it. */
  lemma DecimalSpanStops(s: string, whole: string, fraction: string, rest: string)
    requires DecimalParts(s, whole, fraction)
    requires rest == [] || (!IsDigit(rest[0]) && rest[0] != '.')
    ensures DecimalSpan(s + rest) == |s|
  {
    assert IsDigit(whole[0]) && (fraction != [] ==> IsDigit(fraction[0]));
    hide Span, All;
    if fraction == [] {
      SpanStops(whole, rest, IsDigit);
    } else {
      AroundDot(whole, fraction, rest);
      SpanStops(whole, "." + (fraction + rest), IsDigit);
      SpanStops(fraction, rest, IsDigit);
    }
  }

  lemma AroundDot(whole: string, fraction: string, rest: string)
    requires fraction != []
    ensures var t := whole + "." + fraction + rest;
            && t == whole + ("." + (fraction + rest)) && |t| > |whole| + 1
            && t[|whole|] == '.' && t[|whole| + 1] == fraction[0] && t[|whole| + 1..] == fraction + rest
  {}

  /** Whatever the scan consumes is a token of the language. */
  lemma DecimalSpanSound(s: string)
    requires DecimalSpan(s) > 0
    ensures IsDecimal(s[..DecimalSpan(s)])
  {
    var i := Span(s, IsDigit);
    var n := DecimalSpan(s);
    var fraction := if n == i then [] else s[i + 1..][..n - i - 1];
    assert n > i ==> s[..n] == s[..i] + "." + fraction;
    assert DecimalParts(s[..n], s[..i], fraction);
  }

  function Pow10(k: nat): (p: real)
    ensures p >= 1.0
  {
    if k == 0 then 1.0 else 10.0 * Pow10(k - 1)
  }

  /** The exact value `stod` denotes on a token of the language. */
  function Magnitude(s: string): (x: real)
    ensures x >= 0.0
  {
    var i := Span(s, IsDigit);
    var fraction := if i < |s| then s[i + 1..] else [];
    NatOf(s[..i]) as real + NatOf(fraction) as real / Pow10(|fraction|)
  }

  lemma MagnitudeOfParts(s: string, whole: string, fraction: string)
    requires DecimalParts(s, whole, fraction)
    ensures Magnitude(s) == NatOf(whole) as real + NatOf(fraction) as real / Pow10(|fraction|)
  {
    if fraction == [] {
      SpanStops(whole, [], IsDigit);
      assert whole + [] == whole == whole[..|whole|];
    } else {
      var tail := "." + fraction;
      assert s == whole + tail;
      SpanStops(whole, tail, IsDigit);
      assert s[..|whole|] == whole && s[|whole| + 1..] == fraction;
    }
  }

  // ---- format_double ------------------------------------------------------------

  /** `std::fixed << std::setprecision(2)`: the nearest hundredth, ties to even. */
  function Hundredths(x: real): (h: int)
    ensures x >= 0.0 ==> h >= 0
    ensures -0.5 <= x * 100.0 - h as real <= 0.5
  {
    var f := (x * 100.0).Floor;
    var d := x * 100.0 - f as real;
    if d < 0.5 || (d == 0.5 && f % 2 == 0) then f else f + 1
  }

  /** A value half-way between two hundredths goes to the even one. */
  lemma TiesToEven(x: real)
    requires x * 100.0 - (x * 100.0).Floor as real == 0.5
    ensures Hundredths(x) % 2 == 0
  {}

  function FixedFraction(h: nat): string {
    [Digit(h / 10 % 10), Digit(h % 10)]
  }

  function FormatDouble(d: Double): string {
    var h := Hundredths(d.magnitude);
    (if d.negative then "-" else "") + (NatText(h / 100) + "." + FixedFraction(h))
  }

  /** A value that is already a whole number of hundredths prints without rounding. */
  lemma HundredthsExact(h: nat)
    ensures Hundredths(h as real / 100.0) == h
  {
    assert h as real / 100.0 * 100.0 == h as real;
  }

  function Rounded(d: Double): Double {
    SignedReal(d.negative, Hundredths(d.magnitude) as real / 100.0)
  }

  lemma FixedFractionValue(h: nat)
    ensures NatOf(FixedFraction(h)) == h % 100
  {
    hide NatOf, Digit, DigitValue;
    var tens, units := h / 10 % 10, h % 10;
    TwoDigits(Digit(tens), Digit(units));
    LastTwoDigits(h / 100, tens, units);
    assert h == 100 * (h / 100) + (10 * tens + units);
  }

  lemma LastTwoDigits(q: int, tens: int, units: int)
    requires 0 <= tens < 10 && 0 <= units < 10
    ensures (100 * q + (10 * tens + units)) % 100 == 10 * tens + units
  {}

  lemma TwoDigits(a: char, b: char)
    ensures NatOf([a, b]) == DigitValue(a) * 10 + DigitValue(b)
  {
    assert [a, b][..1] == [a];
    assert [a][..0] == [];
    assert NatOf([a]) == DigitValue(a);
  }

  lemma SplitHundredths(h: nat)
    ensures (h / 100) as real + (h % 100) as real / 100.0 == h as real / 100.0
  {
    assert h == h / 100 * 100 + h % 100;
    assert h as real == (h / 100) as real * 100.0 + (h % 100) as real;
  }

  lemma FixedDigits(h: nat)
    ensures |FixedFraction(h)| == 2 && All(FixedFraction(h), IsDigit)
  {}

  lemma HundredIsPow()
    ensures Pow10(2) == 100.0
  {
    assert Pow10(1) == 10.0 * Pow10(0);
  }

  lemma BodyValue(h: nat, whole: string, fraction: string)
    requires whole == NatText(h / 100) && fraction == FixedFraction(h)
    ensures DecimalParts(whole + "." + fraction, whole, fraction)
    ensures Magnitude(whole + "." + fraction) == h as real / 100.0
  {
    hide NatText, NatOf, Magnitude, FixedFraction, All, IsDigit, Pow10;
    FixedDigits(h);
    MagnitudeOfParts(whole + "." + fraction, whole, fraction);
    NatRoundTrip(h / 100);
    FixedFractionValue(h);
    HundredIsPow();
    SplitHundredths(h);
  }

  lemma BodyHead(whole: string, fraction: string)
    requires whole != [] && All(whole, IsDigit)
    ensures (whole + "." + fraction)[0] != '-'
  {
    assert (whole + "." + fraction)[0] == whole[0];
  }

  /** The shape of a printed number, and the value its digits denote. */
  lemma FormatParts(d: Double) returns (whole: string, fraction: string, body: string)
    ensures DecimalParts(body, whole, fraction) && fraction != [] && body != []
    ensures FormatDouble(d) == (if d.negative then "-" else "") + body
    ensures body[0] != '-' && (|whole| > 1 ==> whole[0] != '0')
    ensures Magnitude(body) == Rounded(d).magnitude
  {
    hide NatText, NatOf, Magnitude, FixedFraction, All, IsDigit, Hundredths, DecimalParts;
    var h := Hundredths(d.magnitude);
    whole, fraction := NatText(h / 100), FixedFraction(h);
    body := whole + "." + fraction;
    FixedDigits(h);
    BodyValue(h, whole, fraction);
    BodyHead(whole, fraction);
    assert FormatDouble(d) == (if d.negative then "-" else "") + body;
  }

  /** Printing a decoded number again gives the same text. */
  lemma FormatStable(d: Double)
    ensures FormatDouble(Rounded(d)) == FormatDouble(d)
  {
    HundredthsExact(Hundredths(d.magnitude));
  }
}
