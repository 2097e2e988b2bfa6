/** Exactly which texts are amounts, and how much each is. */
module AmountExact {
  import opened Prelude
  import opened Radix
  import opened Amount

  predicate AreDigitChars(s: string) {
    forall i :: 0 <= i < |s| ==> '0' <= s[i] <= '9'
  }

  /** An integer without a redundant zero in front. */
  predicate IsInteger(s: string) {
    s != "" && AreDigitChars(s) && (s[0] == '0' ==> s == "0")
  }

  /** An integer, and perhaps a dot with one to six digits. */
  predicate IsAmountText(s: string, whole: string, fraction: string) {
    && IsInteger(whole) && AreDigitChars(fraction) && |fraction| <= 6
    && s == if fraction == "" then whole else whole + "." + fraction
  }

  lemma DigitsAreNumerals(s: string)
    ensures AreDigitChars(s) <==> AreNumerals(s, 10)
  {
    forall i | 0 <= i < |s| ensures '0' <= s[i] <= '9' <==> IsNumeral(s[i], 10) {
      NumeralIsDigit(s[i]);
    }
  }

  lemma NumeralIsDigit(c: char)
    ensures '0' <= c <= '9' <==> IsNumeral(c, 10)
  {
    if '0' <= c <= '9' {
      var d := c as int - '0' as int;
      assert NUMERALS[d] == c;
    }
  }

  lemma IntegersAreDecimal(s: string)
    ensures IsInteger(s) <==> IsDecimal(s)
  {
    DigitsAreNumerals(s);
  }

  lemma TextIsShape(s: string, whole: string, fraction: string)
    requires IsAmountText(s, whole, fraction)
    ensures HasUsdcShape(s) && Whole(s) == whole && Fraction(s) == fraction
  {
    IntegersAreDecimal(whole);
    DigitsAreNumerals(whole);
    DigitsAreNumerals(fraction);
    assert AreNumerals(whole, 10);
    hide AreNumerals, IsDecimal, IsInteger, AreDigitChars;
    CutOfJoin(whole, fraction);
  }

  lemma ShapeIsText(s: string)
    requires HasUsdcShape(s)
    ensures IsAmountText(s, Whole(s), Fraction(s))
  {
    IntegersAreDecimal(Whole(s));
    DigitsAreNumerals(Fraction(s));
    hide AreNumerals, IsDecimal, IsInteger, AreDigitChars;
    var k := DotIndex(s);
    if k < |s| {
      assert s == s[..k] + "." + s[k + 1..];
    }
  }

  /** Zeros at the end of a fraction multiply by ten. */
  lemma {:induction false} PaddingMultiplies(s: string, k: nat)
    ensures ParseDecimal(s + ZeroText(k)) == ParseDecimal(s) * Pow(10, k)
  {
    assert Unspell(s + ZeroText(k)) == Unspell(s) + Zeros(k);
    ValueOfConcat(Unspell(s), Zeros(k), 10);
    ValueOfZeros(k, 10);
  }

  /** What an amount text denotes, in millionths of a unit. */
  function Denoted(whole: string, fraction: string): nat
    requires |fraction| <= 6
  {
    ParseDecimal(whole) * 1_000_000 + ParseDecimal(fraction) * Pow(10, 6 - |fraction|)
  }

  /**
   * Exactly the amount texts are parsed, to what they denote: zero and more than 2^256 - 1 are refused,
   * each for its own reason.
   */
  lemma ParsesExactly(s: string)
    ensures ParseUsdc(s) == Err(NotAnAmount) <==> !exists whole, fraction :: IsAmountText(s, whole, fraction)
    ensures forall whole, fraction :: IsAmountText(s, whole, fraction) ==>
      var units := Denoted(whole, fraction);
      && (units == 0 <==> ParseUsdc(s) == Err(NotPositive))
      && (units >= 0x1_0000000000000000_0000000000000000_0000000000000000_0000000000000000 <==>
          ParseUsdc(s) == Err(ExceedsUint256))
      && (ParseUsdc(s).Ok? ==> ParseUsdc(s).value == units)
  {
    hide HasUsdcShape, IsAmountText, Denoted, Whole, Fraction, ParseDecimal, PadEnd;
    if HasUsdcShape(s) {
      ShapeIsText(s);
    }
    forall whole, fraction | IsAmountText(s, whole, fraction) ensures HasUsdcShape(s) && |fraction| <= 6
      && Millionths(s) == Denoted(whole, fraction) {
      DenotesMillionths(s, whole, fraction);
    }
    hide Millionths;
  }

  lemma DenotesMillionths(s: string, whole: string, fraction: string)
    requires IsAmountText(s, whole, fraction)
    ensures HasUsdcShape(s) && |fraction| <= 6 && Millionths(s) == Denoted(whole, fraction)
  {
    TextIsShape(s, whole, fraction);
    hide HasUsdcShape, IsInteger, AreDigitChars, ParseDecimal, Whole, Fraction, Pow;
    PaddingMultiplies(fraction, 6 - |fraction|);
  }
}
