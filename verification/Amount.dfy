/** Exact USDC amounts: `packages/protocol/src/amount.ts`. */
module Amount {
  import opened Prelude
  import opened Radix

  const USDC_DECIMALS: nat := 6
  const ARC_NATIVE_DECIMALS: nat := 18
  const MAX_UINT256: nat := 0x1_0000000000000000_0000000000000000_0000000000000000_0000000000000000 - 1

  datatype AmountError = NotAnAmount | NotPositive | ExceedsUint256 | UnitsOutOfRange

  /** Where `split('.')` cuts: the first dot, or the end. */
  function DotIndex(s: string): (i: nat)
    ensures i <= |s|
    ensures i < |s| ==> s[i] == '.'
    ensures forall j :: 0 <= j < i ==> s[j] != '.'
  {
    if s == "" || s[0] == '.' then 0 else 1 + DotIndex(s[1..])
  }

  function Whole(s: string): string {
    s[..DotIndex(s)]
  }

  function Fraction(s: string): string {
    if DotIndex(s) < |s| then s[DotIndex(s) + 1..] else ""
  }

  /** The amount pattern: a canonical integer, then optionally a dot and one to six digits. */
  predicate HasUsdcShape(s: string) {
    && IsDecimal(Whole(s))
    && AreNumerals(Fraction(s), 10)
    && |Fraction(s)| <= 6
    && (DotIndex(s) < |s| ==> Fraction(s) != "")
  }

  function ZeroText(k: nat): (s: string)
    ensures |s| == k && forall i :: 0 <= i < k ==> s[i] == '0'
  {
    seq(k, i => '0')
  }

  /** `padEnd(k, '0')`. */
  function PadEnd(s: string, k: nat): (r: string)
    ensures |s| <= k ==> |r| == k
    ensures s <= r
  {
    s + ZeroText(if |s| < k then k - |s| else 0)
  }

  /** What a text with at most six fraction digits denotes, in millionths. */
  function Millionths(s: string): nat {
    ParseDecimal(Whole(s)) * 1_000_000 + ParseDecimal(PadEnd(Fraction(s), 6))
  }

  function ParseUsdc(s: string): (r: Result<nat, AmountError>) {
    if !HasUsdcShape(s) then Err(NotAnAmount)
    else
      var units := Millionths(s);
      if units == 0 then Err(NotPositive)
      else if units > MAX_UINT256 then Err(ExceedsUint256)
      else Ok(units)
  }

  /** `replace(/0+$/, '')`. */
  function StripZeros(s: string): (r: string)
    ensures |r| <= |s| && r == s[..|r|]
    ensures r != "" ==> r[|r| - 1] != '0'
    ensures forall i :: |r| <= i < |s| ==> s[i] == '0'
  {
    if s == "" || s[|s| - 1] != '0' then s else StripZeros(s[..|s| - 1])
  }

  /** The padded fraction before its trailing zeros are dropped. */
  function FullFraction(units: nat, decimals: nat): (s: string)
    ensures |s| == decimals
  {
    ModBelow(units, Pow(10, decimals));
    ValueOfPadLeft(units % Pow(10, decimals), 10, decimals);
    Spell(PadLeft(Digits(units % Pow(10, decimals), 10), decimals))
  }

  lemma ModBelow(n: nat, b: nat)
    requires b >= 1
    ensures 0 <= n % b < b && 0 <= n / b
  {
  }

  function Join(whole: string, fraction: string): string {
    if fraction == "" then whole else whole + "." + fraction
  }

  function FormatUnits(units: int, decimals: nat): Result<string, AmountError> {
    if units < 0 || units > MAX_UINT256 then Err(UnitsOutOfRange)
    else
      ModBelow(units, Pow(10, decimals));
      Ok(Join(Decimal(units / Pow(10, decimals)), StripZeros(FullFraction(units, decimals))))
  }

  function FormatUsdc(units: int): Result<string, AmountError> {
    FormatUnits(units, USDC_DECIMALS)
  }

  /** `replace(/\.$/, '')`. */
  function DropBareDot(s: string): string {
    if s != "" && s[|s| - 1] == '.' then s[..|s| - 1] else s
  }

  function FormatNativeGas(units: int): Result<string, AmountError> {
    match FormatUnits(units, ARC_NATIVE_DECIMALS)
    case Err(e) => Err(e)
    case Ok(text) =>
      if DotIndex(text) == |text| then Ok(Whole(text))
      else
        var fraction := Fraction(text);
        Ok(DropBareDot(Whole(text) + "." + fraction[..Min(|fraction|, 6)]))
  }

  // The text with the redundant end of its fraction removed.
  function Trimmed(s: string): string {
    Join(Whole(s), StripZeros(Fraction(s)))
  }

  // -- Cutting and joining ---------------------------------------------------------------------

  lemma NumeralIsNotDot(s: string)
    requires AreNumerals(s, 10)
    ensures forall i :: 0 <= i < |s| ==> s[i] != '.'
  {
    forall i | 0 <= i < |s| ensures s[i] != '.' {
      assert IsNumeral(s[i], 10);
    }
  }

  lemma DotIndexAt(s: string, k: nat)
    requires k <= |s| && (k < |s| ==> s[k] == '.')
    requires forall i :: 0 <= i < k ==> s[i] != '.'
    ensures DotIndex(s) == k
  {
  }

  lemma CutOfJoin(whole: string, fraction: string)
    requires AreNumerals(whole, 10)
    ensures Whole(Join(whole, fraction)) == whole
    ensures Fraction(Join(whole, fraction)) == fraction
    ensures DotIndex(Join(whole, fraction)) == |whole|
    ensures fraction == "" <==> DotIndex(Join(whole, fraction)) == |Join(whole, fraction)|
  {
    NumeralIsNotDot(whole);
    var s := Join(whole, fraction);
    assert s[..|whole|] == whole;
    assert fraction != "" ==> s[|whole|] == '.' && s[|whole| + 1..] == fraction;
    DotIndexAt(s, |whole|);
  }

  // -- Fractions as padded digits --------------------------------------------------------------

  lemma ZeroIsNumeral()
    ensures IsNumeral('0', 10) && NUMERALS[0] == '0'
  {
    assert NUMERALS[0] == '0';
  }

  lemma PadEndOfStrip(s: string)
    ensures PadEnd(StripZeros(s), |s|) == s
  {
    hide StripZeros, ZeroText;
    var r := StripZeros(s);
    assert s[|r|..] == ZeroText(|s| - |r|);
    assert s == s[..|r|] + s[|r|..];
  }

  lemma {:induction false} StripOfZeros(s: string, k: nat)
    ensures StripZeros(s + ZeroText(k)) == StripZeros(s)
  {
    if k == 0 {
      assert s + ZeroText(0) == s;
    } else {
      var t := s + ZeroText(k);
      assert t[..|t| - 1] == s + ZeroText(k - 1);
      StripOfZeros(s, k - 1);
    }
  }

  lemma NumeralsOfPadEnd(s: string, k: nat)
    requires AreNumerals(s, 10)
    ensures AreNumerals(PadEnd(s, k), 10)
  {
    ZeroIsNumeral();
  }

  lemma FullFractionDenotes(units: nat, decimals: nat)
    ensures AreNumerals(FullFraction(units, decimals), 10)
    ensures Pow(10, decimals) >= 1 && ParseDecimal(FullFraction(units, decimals)) == units % Pow(10, decimals)
  {
    ModBelow(units, Pow(10, decimals));
    var n := units % Pow(10, decimals);
    ValueOfPadLeft(n, 10, decimals);
    UnspellOfSpell(PadLeft(Digits(n, 10), decimals), 10);
  }

  lemma FullFractionOfValue(s: string, units: nat)
    requires AreNumerals(s, 10)
    requires units % Pow(10, |s|) == ParseDecimal(s)
    ensures FullFraction(units, |s|) == s
  {
    SpellOfUnspell(s, 10);
    PadLeftOfValue(Unspell(s), 10);
  }

  lemma PowersOfTen()
    ensures Pow(10, 6) == 1_000_000 && Pow(10, 12) == 1_000_000_000_000
    ensures Pow(10, 18) == 1_000_000_000_000_000_000
  {
    assert Pow(10, 3) == 1000;
    assert Pow(10, 6) == 1_000_000;
    assert Pow(10, 9) == 1_000_000_000;
    assert Pow(10, 12) == 1_000_000_000_000;
    assert Pow(10, 15) == 1_000_000_000_000_000;
  }

  // -- Main results ----------------------------------------------------------------------------

  lemma StrippedIsNumerals(s: string)
    requires AreNumerals(s, 10)
    ensures AreNumerals(StripZeros(s), 10)
  {
  }

  lemma WholeAndFractionDenote(whole: string, fraction: string)
    requires IsDecimal(whole) && AreNumerals(whole, 10)
    requires AreNumerals(fraction, 10) && |fraction| <= 6
    ensures HasUsdcShape(Join(whole, fraction))
    ensures Millionths(Join(whole, fraction)) == ParseDecimal(whole) * 1_000_000 + ParseDecimal(PadEnd(fraction, 6))
  {
    hide ParseDecimal;
    CutOfJoin(whole, fraction);
  }

  lemma FormatUsdcParts(units: nat)
    requires units <= MAX_UINT256
    ensures FormatUsdc(units) == Ok(Join(Decimal(units / 1_000_000), StripZeros(FullFraction(units, 6))))
  {
    hide StripZeros, FullFraction, Decimal, Join;
    PowersOfTen();
  }

  /** The printer is undone by the parser, on every amount the parser can produce. */
  lemma ParseOfFormat(units: nat)
    requires 0 < units <= MAX_UINT256
    ensures FormatUsdc(units).Ok?
    ensures ParseUsdc(FormatUsdc(units).value) == Ok(units)
  {
    hide StripZeros, FullFraction, Decimal, ParseDecimal, Join, Millionths, HasUsdcShape, PadEnd, AreNumerals,
         IsDecimal, FormatUsdc;
    PowersOfTen();
    var whole, full := Decimal(units / 1_000_000), FullFraction(units, 6);
    DecimalRoundTrip(units / 1_000_000);
    FullFractionDenotes(units, 6);
    StrippedIsNumerals(full);
    PadEndOfStrip(full);
    WholeAndFractionDenote(whole, StripZeros(full));
    FormatUsdcParts(units);
  }

  lemma PaddedFractionSplits(s: string, units: nat)
    requires HasUsdcShape(s) && units == Millionths(s)
    ensures units / 1_000_000 == ParseDecimal(Whole(s))
    ensures FullFraction(units, 6) == PadEnd(Fraction(s), 6)
  {
    var padded := PadEnd(Fraction(s), 6);
    NumeralsOfPadEnd(Fraction(s), 6);
    hide PadEnd, FullFraction, HasUsdcShape, Whole, Fraction;
    PowersOfTen();
    SpellOfUnspell(padded, 10);
    ValueBound(Unspell(padded), 10);
    assert ParseDecimal(padded) < 1_000_000;
    FullFractionOfValue(padded, units);
  }

  lemma StripOfPadEnd(s: string)
    requires |s| <= 6
    ensures StripZeros(PadEnd(s, 6)) == StripZeros(s)
  {
    hide StripZeros, ZeroText;
    StripOfZeros(s, 6 - |s|);
  }

  /** Printing what was parsed gives the same text without the redundant end of its fraction. */
  lemma FormatOfParse(s: string)
    requires ParseUsdc(s).Ok?
    ensures FormatUsdc(ParseUsdc(s).value) == Ok(Trimmed(s))
  {
    var units := ParseUsdc(s).value;
    assert HasUsdcShape(s) && units == Millionths(s) && units <= MAX_UINT256;
    assert IsDecimal(Whole(s)) && |Fraction(s)| <= 6;
    hide ParseUsdc, HasUsdcShape, Millionths, FormatUsdc, IsDecimal, ParseDecimal, Decimal, FullFraction, Whole,
         Fraction, PadEnd, StripZeros, Join;
    PaddedFractionSplits(s, units);
    DecimalOfParse(Whole(s));
    StripOfPadEnd(Fraction(s));
    FormatUsdcParts(units);
  }

  /** Two accepted texts denote the same amount exactly when they print alike. */
  lemma ParseIsInjectiveUpToTrim(s: string, t: string)
    requires ParseUsdc(s).Ok? && ParseUsdc(t).Ok?
    ensures ParseUsdc(s) == ParseUsdc(t) <==> Trimmed(s) == Trimmed(t)
  {
    assert 0 < ParseUsdc(s).value <= MAX_UINT256 && 0 < ParseUsdc(t).value <= MAX_UINT256;
    hide *;
    FormatOfParse(s);
    FormatOfParse(t);
    ParseOfFormat(ParseUsdc(s).value);
    ParseOfFormat(ParseUsdc(t).value);
  }

  /** Cutting eighteen digits after the sixth divides by 10^12 and rounds down. */
  lemma CutToMillionths(full: string)
    requires |full| == 18 && AreNumerals(full, 10)
    ensures ParseDecimal(PadEnd(StripZeros(full)[..Min(|StripZeros(full)|, 6)], 6)) ==
            ParseDecimal(full) / 1_000_000_000_000
  {
    PowersOfTen();
    var stripped := StripZeros(full);
    var cut := stripped[..Min(|stripped|, 6)];
    var padded := PadEnd(cut, 6);
    assert padded == full[..6] by {
      forall i | 0 <= i < 6 ensures padded[i] == full[i] {
      }
    }
    var ds := Unspell(full);
    SpellOfUnspell(full, 10);
    assert ds == ds[..6] + ds[6..];
    assert Unspell(full[..6]) == ds[..6];
    ValueOfConcat(ds[..6], ds[6..], 10);
    ValueBound(ds[6..], 10);
    assert ParseDecimal(full) == ParseDecimal(padded) * 1_000_000_000_000 + Value(ds[6..], 10);
  }

  lemma NativeGasText(units: nat, whole: string, stripped: string)
    requires units <= MAX_UINT256 && AreNumerals(whole, 10) && AreNumerals(stripped, 10)
    requires FormatUnits(units, 18) == Ok(Join(whole, stripped))
    ensures FormatNativeGas(units) == Ok(Join(whole, stripped[..Min(|stripped|, 6)]))
  {
    hide FormatUnits, AreNumerals, DotIndex;
    CutOfJoin(whole, stripped);
    NumeralIsNotDot(stripped);
  }

  /** The gas view never rounds up and never drops a whole millionth. */
  lemma NativeGasRoundsDown(units: nat)
    requires units <= MAX_UINT256
    ensures FormatNativeGas(units).Ok?
    ensures Millionths(FormatNativeGas(units).value) == units / 1_000_000_000_000
  {
    hide StripZeros, FullFraction, Decimal, ParseDecimal, Join, HasUsdcShape, PadEnd, AreNumerals, IsDecimal,
         FormatNativeGas, Millionths;
    PowersOfTen();
    var base := 1_000_000_000_000_000_000;
    var whole, full := Decimal(units / base), FullFraction(units, 18);
    DecimalRoundTrip(units / base);
    FullFractionDenotes(units, 18);
    StrippedIsNumerals(full);
    var stripped := StripZeros(full);
    var cut := stripped[..Min(|stripped|, 6)];
    NativeGasText(units, whole, stripped);
    assert AreNumerals(cut, 10) by { NumeralsOfPrefix(stripped, |cut|); }
    CutToMillionths(full);
    WholeAndFractionDenote(whole, cut);
  }

  lemma NumeralsOfPrefix(s: string, k: nat)
    requires k <= |s| && AreNumerals(s, 10)
    ensures AreNumerals(s[..k], 10)
  {
  }

  predicate ZeroFrom(s: string, k: nat) {
    forall i :: k <= i < |s| ==> s[i] == '0'
  }

  /** The cut keeps the zeros that a cut-off digit had protected. */
  lemma CutOfStripped(full: string)
    requires |full| == 18
    ensures var stripped := StripZeros(full);
            stripped[..Min(|stripped|, 6)] == if ZeroFrom(full, 6) then StripZeros(full[..6]) else full[..6]
    ensures StripZeros(full[..6]) == full[..6] <==> full[5] != '0'
  {
    if ZeroFrom(full, 6) {
      assert full == full[..6] + ZeroText(12);
      StripOfZeros(full[..6], 12);
    } else {
      var i :| 6 <= i < |full| && full[i] != '0';
      hide StripZeros, ZeroText;
      assert |StripZeros(full)| > i;
    }
  }

  lemma ZeroNumeral(c: char)
    requires IsNumeral(c, 10)
    ensures c == '0' <==> NumeralValue(c) == 0
  {
    assert NUMERALS[NumeralValue(c)] == c && NUMERALS[0] == '0';
  }

  lemma ZeroTextIsZero(s: string)
    requires AreNumerals(s, 10)
    ensures ParseDecimal(s) == 0 <==> ZeroFrom(s, 0)
  {
    ZeroValue(Unspell(s), 10);
    forall i | 0 <= i < |s| ensures s[i] == '0' <==> Unspell(s)[i] == 0 {
      ZeroNumeral(s[i]);
    }
  }

  lemma LastNumeral(s: string)
    requires AreNumerals(s, 10) && s != ""
    ensures ParseDecimal(s) % 10 == 0 <==> s[|s| - 1] == '0'
  {
    ZeroNumeral(s[|s| - 1]);
    SpellOfUnspell(s, 10);
  }

  lemma SplitValue(full: string)
    requires |full| == 18 && AreNumerals(full, 10)
    ensures ParseDecimal(full) == ParseDecimal(full[..6]) * 1_000_000_000_000 + ParseDecimal(full[6..])
    ensures ParseDecimal(full[..6]) < 1_000_000 && ParseDecimal(full[6..]) < 1_000_000_000_000
  {
    PowersOfTen();
    var ds := Unspell(full);
    SpellOfUnspell(full, 10);
    assert ds == ds[..6] + ds[6..] && Unspell(full[..6]) == ds[..6] && Unspell(full[6..]) == ds[6..];
    hide Pow, Value;
    ValueOfConcat(ds[..6], ds[6..], 10);
    ValueBound(ds[..6], 10);
    ValueBound(ds[6..], 10);
  }

  /** Eighteen digits, split after the sixth. */
  lemma SplitDigits(full: string)
    requires |full| == 18 && AreNumerals(full, 10)
    ensures var high := ParseDecimal(full[..6]);
            && ParseDecimal(full) / 1_000_000_000_000 == high < 1_000_000
            && (ParseDecimal(full) % 1_000_000_000_000 == 0 <==> ZeroFrom(full, 6))
            && (high % 10 == 0 <==> full[5] == '0')
  {
    hide ParseDecimal;
    SplitValue(full);
    ZeroTextIsZero(full[6..]);
    LastNumeral(full[..6]);
    hide AreNumerals;
    assert forall i :: 0 <= i < 12 ==> full[6..][i] == full[i + 6];
  }

  lemma Quotient(x: nat, q: nat, r: nat, n: nat)
    requires x == q * n + r && r < n
    ensures x / n == q && x % n == r
  {
    QuotientOf(q, r, n);
  }

  lemma QuotientsOfUnits(units: nat)
    ensures var rest := units % 1_000_000_000_000_000_000;
            && (units / 1_000_000_000_000) / 1_000_000 == units / 1_000_000_000_000_000_000
            && (units / 1_000_000_000_000) % 1_000_000 == rest / 1_000_000_000_000
            && (units / 1_000_000_000_000) % 10 == (rest / 1_000_000_000_000) % 10
            && units % 1_000_000_000_000 == rest % 1_000_000_000_000
  {
    var q, rest := units / 1_000_000_000_000_000_000, units % 1_000_000_000_000_000_000;
    var high, low := rest / 1_000_000_000_000, rest % 1_000_000_000_000;
    Quotient(units, q * 1_000_000 + high, low, 1_000_000_000_000);
    Quotient(q * 1_000_000 + high, q, high, 1_000_000);
    Quotient(q * 1_000_000 + high, q * 100_000 + high / 10, high % 10, 10);
  }

  /**
   * The gas view is the text the exact printer gives the rounded amount, with no redundant zero,
   * exactly when nothing was cut off or the last digit kept is not zero.
   */
  lemma NativeGasIsShortestExactlyWhen(units: nat)
    requires units <= MAX_UINT256
    ensures FormatNativeGas(units) == FormatUsdc(units / 1_000_000_000_000) <==>
            units % 1_000_000_000_000 == 0 || (units / 1_000_000_000_000) % 10 != 0
  {
    hide StripZeros, FullFraction, Decimal, ParseDecimal, Join, AreNumerals, FormatNativeGas, FormatUsdc, Pow;
    PowersOfTen();
    QuotientsOfUnits(units);
    var millionths := units / 1_000_000_000_000;
    var whole, full := Decimal(units / 1_000_000_000_000_000_000), FullFraction(units, 18);
    FullFractionDenotes(units, 18);
    SplitDigits(full);
    NumeralsOfPrefix(full, 6);
    FullFractionOfValue(full[..6], millionths);
    StrippedIsNumerals(full);
    CutOfStripped(full);
    GasTexts(units, whole, full, millionths);
  }

  lemma GasTexts(units: nat, whole: string, full: string, millionths: nat)
    requires units <= MAX_UINT256 && millionths == units / 1_000_000_000_000 && full == FullFraction(units, 18)
    requires whole == Decimal(units / 1_000_000_000_000_000_000) == Decimal(millionths / 1_000_000)
    requires FullFraction(millionths, 6) == full[..6] && AreNumerals(StripZeros(full), 10)
    ensures var stripped := StripZeros(full);
            FormatNativeGas(units) == FormatUsdc(millionths) <==>
              stripped[..Min(|stripped|, 6)] == StripZeros(full[..6])
  {
    hide StripZeros, FullFraction, Decimal, Join, AreNumerals, FormatNativeGas, FormatUsdc, Pow;
    PowersOfTen();
    DecimalRoundTrip(units / 1_000_000_000_000_000_000);
    var stripped := StripZeros(full);
    assert FormatUnits(units, 18) == Ok(Join(whole, stripped));
    NativeGasText(units, whole, stripped);
    FormatUsdcParts(millionths);
    CutOfJoin(whole, stripped[..Min(|stripped|, 6)]);
    CutOfJoin(whole, StripZeros(full[..6]));
  }
}
