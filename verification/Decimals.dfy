/** Decimal numerals: how amounts are written into a reply and read back out of it. */
module Decimals {
  import opened Text
  import opened Regex
  import opened Scanners
  import opened Joints
  import opened Wrappers

  function DigitChar(d: nat): char
    requires d < 10
  {
    ('0' as int + d) as char
  }

  function DigitValue(c: char): nat
    requires IsDigit(c)
  {
    c as int - '0' as int
  }

  predicate AllDigits(s: string) { forall k :: 0 <= k < |s| ==> IsDigit(s[k]) }

  function ToNat(s: string): nat
    requires AllDigits(s)
  {
    if s == "" then 0 else 10 * ToNat(s[..|s| - 1]) + DigitValue(s[|s| - 1])
  }

  /** The decimal numeral of `n`, without leading zeros. */
  function Digits(n: nat): (s: string)
    ensures s != "" && AllDigits(s)
  {
    if n < 10 then [DigitChar(n)] else Digits(n / 10) + [DigitChar(n % 10)]
  }

  lemma {:induction false} DigitsRoundTrip(n: nat)
    ensures ToNat(Digits(n)) == n
  {
    if n < 10 {
      assert [DigitChar(n)][..0] == "";
    } else {
      DigitsRoundTrip(n / 10);
      var s := Digits(n);
      assert s[..|s| - 1] == Digits(n / 10);
    }
  }

  function Pow10(k: nat): (p: nat)
    ensures p > 0
  {
    if k == 0 then 1 else 10 * Pow10(k - 1)
  }

  function Fraction(whole: string, fraction: string): real
    requires AllDigits(whole) && AllDigits(fraction)
  {
    ToNat(whole + fraction) as real / Pow10(|fraction|) as real
  }

  /** The value of a numeral in either spelling of the separator; `None` where the text is
      not a plain numeral. */
  function AsDecimal(text: string): Option<real> {
    var n := RunLen(DigitClass, text);
    RunLenRun(DigitClass, text);
    if n == 0 then None
    else if n == |text| then Some(Fraction(text, ""))
    else if IsSep(text[n]) && n + 1 < |text| && RunLen(DigitClass, text[n + 1..]) == |text| - n - 1 then
      RunLenRun(DigitClass, text[n + 1..]);
      Some(Fraction(text[..n], text[n + 1..]))
    else None
  }

  /** `round(x)` to an integer, ties to even. */
  function RoundHalfEven(x: real): (r: int)
    requires x >= 0.0
    ensures r >= 0
    ensures -0.5 <= r as real - x <= 0.5
    ensures r as real - x == 0.5 || x - r as real == 0.5 ==> r % 2 == 0
  {
    var f := x.Floor;
    var d := x - f as real;
    if d < 0.5 || (d == 0.5 && f % 2 == 0) then f else f + 1
  }

  function Abs(v: real): real { if v < 0.0 then -v else v }

  /** The whole number of hundredths `v` is written as. */
  function Cents(v: real): nat { RoundHalfEven(Abs(v) * 100.0) }

  /** `cents` hundredths with exactly two decimals. */
  function Fixed(cents: nat): string {
    Digits(cents / 100) + "." + [DigitChar(cents / 10 % 10), DigitChar(cents % 10)]
  }

  /** `f"{v:.2f}"`. */
  function FormatAmount(v: real): string {
    (if v < 0.0 then "-" else "") + Fixed(Cents(v))
  }

  // ---------------------------------------------------------------------------------

  lemma {:induction false} RunLenOf(cls: Class, a: string, b: string)
    requires forall k :: 0 <= k < |a| ==> cls.Has(a[k])
    requires b != "" ==> !cls.Has(b[0])
    ensures RunLen(cls, a + b) == |a|
  {
    if a == "" {
      assert a + b == b;
    } else {
      assert (a + b)[1..] == a[1..] + b;
      RunLenOf(cls, a[1..], b);
    }
  }

  lemma ToNatAppend(s: string, c: char)
    requires AllDigits(s) && IsDigit(c)
    ensures AllDigits(s + [c]) && ToNat(s + [c]) == 10 * ToNat(s) + DigitValue(c)
  {
    assert (s + [c])[..|s|] == s;
  }

  lemma ScaledRatio(a: real, b: real)
    requires b > 0.0
    ensures (10.0 * a) / (10.0 * b) == a / b
  {
  }

  /** Appending a zero to the fraction does not change the value: `42.1` is `42.10`. */
  lemma TrailingZero(whole: string, fraction: string)
    requires AllDigits(whole) && AllDigits(fraction)
    ensures AllDigits(fraction + "0") && Fraction(whole, fraction + "0") == Fraction(whole, fraction)
  {
    ToNatAppend(whole + fraction, '0');
    assert whole + (fraction + "0") == (whole + fraction) + "0";
    var a, b := ToNat(whole + fraction) as real, Pow10(|fraction|) as real;
    assert Pow10(|fraction + "0"|) == 10 * Pow10(|fraction|);
    assert b > 0.0;
    ScaledRatio(a, b);
  }

  /** Comma, point and trailing-zero spellings of one amount compare equal. */
  lemma SpellingsAgree(whole: string, fraction: string, sep: char, sep': char)
    requires whole != "" && fraction != "" && AllDigits(whole) && AllDigits(fraction)
    requires IsSep(sep) && IsSep(sep')
    ensures AsDecimal(whole + [sep] + fraction) == Some(Fraction(whole, fraction))
    ensures AsDecimal(whole + [sep] + fraction) == AsDecimal(whole + [sep'] + fraction + "0")
  {
    SpelledOut(whole, sep, fraction);
    SpelledOut(whole, sep', fraction + "0");
    assert whole + [sep'] + (fraction + "0") == whole + [sep'] + fraction + "0";
    TrailingZero(whole, fraction);
  }

  lemma SpelledOut(whole: string, sep: char, fraction: string)
    requires whole != "" && fraction != "" && AllDigits(whole) && AllDigits(fraction) && IsSep(sep)
    ensures AsDecimal(whole + [sep] + fraction) == Some(Fraction(whole, fraction))
  {
    var tail := [sep] + fraction;
    var text := whole + [sep] + fraction;
    assert text == whole + tail;
    RunLenOf(DigitClass, whole, tail);
    assert text[..|whole|] == whole;
    assert text[|whole| + 1..] == fraction;
    RunLenOf(DigitClass, fraction, "");
    assert fraction + "" == fraction;
  }

  lemma WholeNumeral(whole: string)
    requires whole != "" && AllDigits(whole)
    ensures AsDecimal(whole) == Some(ToNat(whole) as real)
  {
    RunLenOf(DigitClass, whole, "");
    assert whole + "" == whole;
    assert Pow10(0) == 1;
  }

  /** A numeral without a fraction has the value of its digits, and writing a fraction of zero
      behind it, in either spelling, does not change it. */
  lemma WholeNumerals(whole: string, n: nat)
    requires whole != "" && AllDigits(whole)
    ensures AsDecimal(whole + ".0") == AsDecimal(whole) && AsDecimal(whole + ",0") == AsDecimal(whole)
    ensures AsDecimal(Digits(n)) == Some(n as real)
  {
    WholeNumeral(whole);
    SpelledOut(whole, '.', "0");
    SpelledOut(whole, ',', "0");
    assert whole + ['.'] + "0" == whole + ".0" && whole + [','] + "0" == whole + ",0";
    TrailingZero(whole, "");
    assert "" + "0" == "0" && whole + "" == whole && Pow10(0) == 1;
    DigitsRoundTrip(n);
    WholeNumeral(Digits(n));
  }

  /** Every numeral the number scan can find parses. */
  lemma NumeralParses(s: string)
    requires s != "" && IsDigit(s[0])
    ensures AsDecimal(s[..NumeralLen(s)]).Some?
  {
    var whole := RunLen(DigitClass, s);
    var n := NumeralLen(s);
    var t := s[..n];
    RunLenRun(DigitClass, s);
    if n == whole {
      RunLenOf(DigitClass, t, "");
      assert t + "" == t;
    } else {
      var fraction := t[whole + 1..];
      RunLenRun(DigitClass, s[whole + 1..]);
      assert fraction == s[whole + 1..][..n - whole - 1];
      assert t == s[..whole] + [s[whole]] + fraction;
      SpelledOut(s[..whole], s[whole], fraction);
    }
  }

  lemma TwoDecimals(whole: string, tens: nat, ones: nat)
    requires AllDigits(whole) && tens < 10 && ones < 10
    ensures Fraction(whole, [DigitChar(tens), DigitChar(ones)]) ==
            (100 * ToNat(whole) + 10 * tens + ones) as real / 100.0
  {
    var t, o := DigitChar(tens), DigitChar(ones);
    ToNatAppend(whole, t);
    ToNatAppend(whole + [t], o);
    assert whole + [t, o] == whole + [t] + [o];
    assert Pow10(2) == 10 * Pow10(1) && Pow10(1) == 10 * Pow10(0);
  }

  lemma HundredsTensOnes(n: nat)
    ensures n == 100 * (n / 100) + 10 * (n / 10 % 10) + n % 10
  {
  }

  lemma FixedValue(cents: nat)
    ensures AsDecimal(Fixed(cents)) == Some(cents as real / 100.0)
  {
    var whole := Digits(cents / 100);
    var tens, ones := cents / 10 % 10, cents % 10;
    DigitsRoundTrip(cents / 100);
    HundredsTensOnes(cents);
    TwoDecimals(whole, tens, ones);
    SpelledOut(whole, '.', [DigitChar(tens), DigitChar(ones)]);
  }

  /** A written amount is one numeral and nothing else. */
  lemma FixedIsOneNumeral(cents: nat)
    ensures NumeralLen(Fixed(cents)) == |Fixed(cents)| && Numerals(Fixed(cents)) == [Fixed(cents)]
  {
    var whole := Digits(cents / 100);
    var tail := [DigitChar(cents / 10 % 10), DigitChar(cents % 10)];
    var s := Fixed(cents);
    assert s == whole + ("." + tail);
    RunLenOf(DigitClass, whole, "." + tail);
    assert s[|whole| + 1..] == tail;
    RunLenOf(DigitClass, tail, "");
    assert tail + "" == tail;
    assert s[..|s|] == s && s[|s|..] == "";
    assert IsDigit(s[0]);
    assert Numerals("") == [];
  }

  /** Printing, scanning and parsing an amount gives one literal; its value is the amount
      rounded to the nearest hundredth, ties to even, so it is the amount exactly when that is a
      whole number of hundredths. A sign is written exactly for a negative amount. */
  lemma AmountRoundTrip(v: real)
    ensures Numerals(FormatAmount(v)) == [Fixed(Cents(v))]
    ensures AsDecimal(Fixed(Cents(v))) == Some(Cents(v) as real / 100.0)
    ensures v >= 0.0 ==> (AsDecimal(Fixed(Cents(v))) == Some(v) <==> (v * 100.0).Floor as real == v * 100.0)
    ensures -0.5 <= Cents(v) as real - Abs(v) * 100.0 <= 0.5
    ensures Cents(v) as real - Abs(v) * 100.0 == 0.5 || Abs(v) * 100.0 - Cents(v) as real == 0.5 ==> Cents(v) % 2 == 0
    ensures FormatAmount(v)[0] == '-' <==> v < 0.0
  {
    FixedValue(Cents(v));
    FixedIsOneNumeral(Cents(v));
    var s := FormatAmount(v);
    if v < 0.0 {
      assert s[0] == '-' && s[1..] == Fixed(Cents(v));
    } else {
      assert s == Fixed(Cents(v));
      var x := v * 100.0;
      if x.Floor as real == x {
        assert Cents(v) == x.Floor;
      }
    }
  }

  /** The same inside a text: between neighbours that do not run into it, a printed amount is
      scanned as one numeral, and the rest of the text as it would be alone. */
  lemma AmountInText(before: string, v: real, after: string)
    requires SplitsNumerals(before, FormatAmount(v)) && SplitsNumerals(before + FormatAmount(v), after)
    ensures Numerals(before + FormatAmount(v) + after) == Numerals(before) + [Fixed(Cents(v))] + Numerals(after)
  {
    NumeralsJoint(before + FormatAmount(v), after);
    NumeralsJoint(before, FormatAmount(v));
    AmountRoundTrip(v);
  }
}
