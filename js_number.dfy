/**
 * The JavaScript number behaviour the storefront relies on, modelled exactly:
 * finite values are `real`s (no binary floating point), `Math.round`,
 * `toFixed(2)` and `toString()` of an amount that is a whole number of cents,
 * and the conversion of a decimal string to a number.
 */
module JsNumber {
  import opened Wrappers
  import opened JsText

  /** A JavaScript number as far as the model needs it: a finite value or NaN. */
  datatype Numeric = Finite(value: real) | NaN

  function Abs(i: int): nat {
    if i < 0 then -i else i
  }

  /** `Math.round(x)`: the nearest integer, a half rounded up (towards +infinity). */
  function MathRound(x: real): (n: int)
    ensures n as real - 0.5 <= x < n as real + 0.5
  {
    (x + 0.5).Floor
  }

  /** Real division by 100 of an integer rounds down to the integer quotient. */
  lemma FloorHundredth(n: int)
    ensures (n as real / 100.0).Floor == n / 100
  {
    var q, r := n / 100, n % 100;
    assert n == 100 * q + r && 0 <= r < 100;
    assert n as real / 100.0 == q as real + r as real / 100.0;
  }

  // ---------------------------------------------------------------------------
  // Rendering

  function TwoDigits(d: nat): (s: string)
    requires d < 100
    ensures |s| == 2 && AllDigits(s) && DigitsValue(s) == d
  {
    var s := [DigitChar(d / 10), DigitChar(d % 10)];
    assert s[..1] == [DigitChar(d / 10)] && s[..1][..0] == [];
    assert DigitsValue(s[..1]) == d / 10;
    s
  }

  /** `x.toFixed(2)` for an amount of `cents` hundredths. */
  function FixedTwo(cents: int): (s: string)
    ensures |s| >= 4 && s[|s| - 3] == '.' && AllDigits(s[|s| - 2..])
    ensures cents >= 0 ==> IsDigit(s[0])
    ensures cents < 0 ==> s[0] == '-'
  {
    var a := Abs(cents);
    (if cents < 0 then "-" else "") + NatToString(a / 100) + "." + TwoDigits(a % 100)
  }

  /**
   * The digits of `toFixed(2)`: the whole part spells `|cents| / 100` without
   * leading zeros, and the two fraction digits spell `|cents| % 100`.
   */
  lemma FixedTwoDigits(cents: int)
    ensures var s := FixedTwo(cents);
      var whole := if cents < 0 then s[1..|s| - 3] else s[..|s| - 3];
      |whole| >= 1 && AllDigits(whole) && (whole[0] == '0' ==> whole == "0") &&
      DigitsValue(whole) == Abs(cents) / 100 && DigitsValue(s[|s| - 2..]) == Abs(cents) % 100
  {
    var a := Abs(cents);
    var sign := if cents < 0 then "-" else "";
    var w := NatToString(a / 100);
    var f := TwoDigits(a % 100);
    var s := sign + w + "." + f;
    assert FixedTwo(cents) == s;
    assert s[|s| - 2..] == f;
    assert (if cents < 0 then s[1..|s| - 3] else s[..|s| - 3]) == w;
    assert NatToString(0) == "0";
  }

  /** The fraction digits `toString()` prints for `d` hundredths: trailing zeros dropped. */
  function FractionText(d: nat): (s: string)
    requires d < 100
  {
    if d == 0 then "" else if d % 10 == 0 then "." + [DigitChar(d / 10)] else "." + TwoDigits(d)
  }

  /** `x.toString()` for an amount of `cents` hundredths (below the exponent range). */
  function CentsToString(cents: int): string {
    var a := Abs(cents);
    (if cents < 0 then "-" else "") + NatToString(a / 100) + FractionText(a % 100)
  }

  // ---------------------------------------------------------------------------
  // Parsing

  /**
   * A decimal literal `[-]digits[.digits]`, `[-]digits.` or `[-].digits` read
   * as its exact value; any other text (a lone point included) is not a number.
   */
  function ParseDecimal(s: string): Option<real> {
    if |s| > 0 && s[0] == '-' then
      match ParseUnsigned(s[1..])
      case Some(v) => Some(-v)
      case None => None
    else ParseUnsigned(s)
  }

  function ParseUnsigned(s: string): Option<real> {
    var parts := Split(s, '.');
    if |parts| == 1 && |s| > 0 && AllDigits(s) then Some(DigitsValue(s) as real)
    else if |parts| == 2 && |parts[0]| + |parts[1]| > 0 && AllDigits(parts[0]) && AllDigits(parts[1]) then
      Some(PointValue(parts[0], parts[1]))
    else None
  }

  /** The value of `whole.frac`. */
  function PointValue(whole: string, frac: string): real
    requires AllDigits(whole) && AllDigits(frac)
  {
    DigitsValue(whole) as real + DigitsValue(frac) as real / Pow10(|frac|) as real
  }

  /** The parts of `whole.frac` when neither holds a point. */
  lemma SplitPoint(whole: string, frac: string)
    requires AllDigits(whole) && AllDigits(frac)
    ensures Split(whole + "." + frac, '.') == [whole, frac]
  {
    AllDigitsNoPoint(whole);
    AllDigitsNoPoint(frac);
    assert whole + "." + frac == whole + ['.'] + frac;
    SplitAtFirst(whole, '.', frac);
    SplitNoSep(frac, '.');
  }

  function Pow10(k: nat): (p: nat)
    ensures p >= 1
  {
    if k == 0 then 1 else 10 * Pow10(k - 1)
  }

  /** `Number(s)` on a string: blank text is 0, a decimal literal its value, anything else NaN. */
  function StringToNumber(s: string): (n: Numeric)
    ensures IsBlank(s) ==> n == Finite(0.0)
    ensures !IsBlank(s) ==> (n.NaN? <==> ParseDecimal(s).None?)
    ensures !IsBlank(s) && ParseDecimal(s).Some? ==> n == Finite(ParseDecimal(s).value)
  {
    if IsBlank(s) then Finite(0.0)
    else match ParseDecimal(s)
      case Some(v) => Finite(v)
      case None => NaN
  }

  /** As with `Number`, the integer part may be left out, but a lone point is not a number. */
  lemma LeadingPointLiteral()
    ensures StringToNumber(".5") == Finite(0.5)
    ensures StringToNumber("-.5") == Finite(-0.5)
    ensures StringToNumber(".") == NaN
  {
    assert ".5" == "" + "." + "5";
    SplitPoint("", "5");
    assert "-.5"[1..] == ".5";
    assert "." == "" + "." + "";
    SplitPoint("", "");
    assert !IsBlank(".5") && !IsBlank("-.5") && !IsBlank(".") by {
      assert ".5"[0] == '.' && "-.5"[0] == '-' && "."[0] == '.';
    }
  }

  lemma AllDigitsNoPoint(s: string)
    requires AllDigits(s)
    ensures '.' !in s
  {
  }

  /** `whole.frac` reads as its point value. */
  lemma ParsePointText(whole: string, frac: string)
    requires |whole| > 0 && AllDigits(whole) && AllDigits(frac)
    ensures ParseUnsigned(whole + "." + frac) == Some(PointValue(whole, frac))
  {
    SplitPoint(whole, frac);
  }

  lemma PointValueCents(a: nat, frac: string)
    requires AllDigits(frac) && 1 <= |frac| <= 2
    requires (if |frac| == 1 then DigitsValue(frac) * 10 else DigitsValue(frac)) == a % 100
    ensures PointValue(NatToString(a / 100), frac) == a as real / 100.0
  {
    var q, r, f := a / 100, a % 100, DigitsValue(frac);
    assert a == 100 * q + r;
    var fr: real := f as real / Pow10(|frac|) as real;
    assert fr == r as real / 100.0 by {
      if |frac| == 1 {
        assert Pow10(1) == 10;
        assert r == 10 * f;
      } else {
        assert Pow10(2) == 100;
      }
    }
    assert a as real / 100.0 == q as real + r as real / 100.0;
  }

  lemma ParseUnsignedPoint(a: nat, frac: string)
    requires AllDigits(frac) && 1 <= |frac| <= 2
    requires (if |frac| == 1 then DigitsValue(frac) * 10 else DigitsValue(frac)) == a % 100
    ensures ParseUnsigned(NatToString(a / 100) + "." + frac) == Some(a as real / 100.0)
  {
    ParsePointText(NatToString(a / 100), frac);
    PointValueCents(a, frac);
  }

  /** `toFixed(2)` text reads back as the amount it renders. */
  lemma {:induction false} ParseFixedTwo(cents: int)
    ensures ParseDecimal(FixedTwo(cents)) == Some(cents as real / 100.0)
  {
    var a := Abs(cents);
    var u := NatToString(a / 100) + "." + TwoDigits(a % 100);
    ParseUnsignedPoint(a, TwoDigits(a % 100));
    if cents < 0 {
      assert FixedTwo(cents) == "-" + u;
      assert ("-" + u)[1..] == u;
    } else {
      assert FixedTwo(cents) == u;
      assert u[0] == NatToString(a / 100)[0];
    }
  }

  lemma ParseUnsignedText(a: nat)
    ensures ParseUnsigned(NatToString(a / 100) + FractionText(a % 100)) == Some(a as real / 100.0)
  {
    var w := NatToString(a / 100);
    var d := a % 100;
    if d == 0 {
      assert w + FractionText(d) == w;
      AllDigitsNoPoint(w);
      SplitNoSep(w, '.');
      assert a == 100 * (a / 100);
    } else if d % 10 == 0 {
      var f := [DigitChar(d / 10)];
      assert f[..0] == [];
      assert DigitsValue(f) * 10 == d;
      assert FractionText(d) == "." + f;
      assert w + FractionText(d) == w + "." + f;
      ParseUnsignedPoint(a, f);
    } else {
      assert w + FractionText(d) == w + "." + TwoDigits(d);
      ParseUnsignedPoint(a, TwoDigits(d));
    }
  }

  /** `toString()` text reads back as the amount it renders. */
  lemma {:induction false} ParseCentsToString(cents: int)
    ensures ParseDecimal(CentsToString(cents)) == Some(cents as real / 100.0)
  {
    var a := Abs(cents);
    var u := NatToString(a / 100) + FractionText(a % 100);
    ParseUnsignedText(a);
    if cents < 0 {
      assert CentsToString(cents) == "-" + u;
      assert ("-" + u)[1..] == u;
    } else {
      assert CentsToString(cents) == u;
      assert u[0] == NatToString(a / 100)[0];
    }
  }
}
