/** Positional notation: decimal text, hexadecimal text and big-endian bytes are all this. */
module Radix {

  function Pow(b: nat, k: nat): (p: nat)
    ensures b >= 1 ==> p >= 1
  {
    if k == 0 then 1 else Mul(b, Pow(b, k - 1))
  }

  /** A product kept behind a name, so that the solver multiplies only where a lemma asks it to. */
  function Mul(a: nat, b: nat): (p: nat)
    ensures p == a * b
    ensures a >= 1 && b >= 1 ==> p >= 1
  {
    a * b
  }

  predicate AreDigits(ds: seq<nat>, b: nat) {
    forall i :: 0 <= i < |ds| ==> ds[i] < b
  }

  /** No leading zero: the form a printer emits for a positive number. */
  predicate Canonical(ds: seq<nat>) {
    ds == [] || ds[0] != 0
  }

  function Value(ds: seq<nat>, b: nat): nat {
    if ds == [] then 0 else Value(ds[..|ds| - 1], b) * b + ds[|ds| - 1]
  }

  /** The digits of `n`, most significant first; zero has none. */
  function Digits(n: nat, b: nat): (ds: seq<nat>)
    requires b >= 2
    ensures AreDigits(ds, b) && Canonical(ds)
    ensures n > 0 ==> ds != []
    decreases n
  {
    if n == 0 then []
    else
      DivShrinks(n, b);
      Digits(n / b, b) + [n % b]
  }

  lemma MulMonotone(a: nat, b: nat, c: nat)
    ensures a <= b ==> a * c <= b * c && c * a <= c * b
  {
    if a <= b {
      assert (b - a) * c >= 0;
      assert b * c == a * c + (b - a) * c;
    }
  }

  lemma DivMod(n: nat, b: nat)
    requires b >= 1
    ensures n == (n / b) * b + n % b && 0 <= n % b < b && n / b >= 0
  {
  }

  lemma DivShrinks(n: nat, b: nat)
    requires n > 0 && b >= 2
    ensures 0 <= n / b < n
  {
    DivMod(n, b);
    MulMonotone(2, b, n / b);
  }

  lemma {:induction false} ValueOfDigits(n: nat, b: nat)
    requires b >= 2
    ensures Value(Digits(n, b), b) == n
    decreases n
  {
    if n > 0 {
      DivShrinks(n, b);
      ValueOfDigits(n / b, b);
      var ds := Digits(n, b);
      assert ds[..|ds| - 1] == Digits(n / b, b);
      DivMod(n, b);
    }
  }

  /** Quotient and remainder are the only pair that rebuilds a number. */
  lemma QuotientOf(q: nat, r: nat, b: nat)
    requires r < b
    ensures (q * b + r) / b == q && (q * b + r) % b == r
  {
    var n := q * b + r;
    DivMod(n, b);
    MulMonotone(q + 1, n / b, b);
    MulMonotone(n / b + 1, q, b);
    assert (q + 1) * b == q * b + b;
    assert (n / b + 1) * b == (n / b) * b + b;
  }

  lemma {:induction false} DigitsOfValue(ds: seq<nat>, b: nat)
    requires b >= 2 && AreDigits(ds, b) && Canonical(ds)
    ensures Digits(Value(ds, b), b) == ds
    ensures ds != [] ==> Value(ds, b) > 0
  {
    if ds != [] {
      var front := ds[..|ds| - 1];
      var last := ds[|ds| - 1];
      assert Canonical(front) && AreDigits(front, b);
      DigitsOfValue(front, b);
      var v := Value(front, b);
      QuotientOf(v, last, b);
      MulMonotone(1, v, b);
      assert front != [] ==> v >= 1;
      assert front == [] ==> ds[0] == last;
      assert v * b + last > 0;
      assert Digits(v * b + last, b) == Digits(v, b) + [last];
      assert ds == front + [last];
    }
  }

  lemma {:induction false} ValueOfConcat(a: seq<nat>, c: seq<nat>, b: nat)
    ensures Value(a + c, b) == Value(a, b) * Pow(b, |c|) + Value(c, b)
  {
    if c == [] {
      assert a + c == a;
    } else {
      var front := c[..|c| - 1];
      var last := c[|c| - 1];
      assert (a + c)[..|a + c| - 1] == a + front;
      ValueOfConcat(a, front, b);
      Distribute(Value(a, b), Pow(b, |front|), Value(front, b), b);
    }
  }

  lemma Distribute(v: nat, p: nat, w: nat, b: nat)
    ensures (v * p + w) * b == v * Mul(b, p) + w * b
  {
    assert (v * p + w) * b == (v * p) * b + w * b;
    assert v * (b * p) == (v * p) * b;
  }

  lemma {:induction false} ValueBound(ds: seq<nat>, b: nat)
    requires b >= 1 && AreDigits(ds, b)
    ensures Value(ds, b) < Pow(b, |ds|)
  {
    if ds != [] {
      var front := ds[..|ds| - 1];
      ValueBound(front, b);
      NextDigitFits(Value(front, b), Pow(b, |front|), ds[|ds| - 1], b);
    }
  }

  lemma NextDigitFits(v: nat, p: nat, d: nat, b: nat)
    requires v < p && d < b
    ensures v * b + d < Mul(b, p)
  {
    MulMonotone(v + 1, p, b);
    assert (v + 1) * b == v * b + b;
  }

  /** A number below b^k needs at most k digits. */
  lemma {:induction false} DigitCount(n: nat, b: nat, k: nat)
    requires b >= 2 && n < Pow(b, k)
    ensures |Digits(n, b)| <= k
    decreases n
  {
    if n > 0 {
      DivShrinks(n, b);
      DivMod(n, b);
      MulMonotone(Pow(b, k - 1), n / b, b);
      DigitCount(n / b, b, k - 1);
    }
  }

  function Zeros(k: nat): (z: seq<nat>)
    ensures |z| == k && forall i :: 0 <= i < k ==> z[i] == 0
  {
    seq(k, i => 0)
  }

  lemma {:induction false} ValueOfZeros(k: nat, b: nat)
    ensures Value(Zeros(k), b) == 0
  {
    if k > 0 {
      assert Zeros(k)[..k - 1] == Zeros(k - 1);
      ValueOfZeros(k - 1, b);
    }
  }

  lemma {:induction false} ZeroValue(ds: seq<nat>, b: nat)
    requires b >= 1
    ensures Value(ds, b) == 0 <==> forall i :: 0 <= i < |ds| ==> ds[i] == 0
  {
    if ds != [] {
      var front := ds[..|ds| - 1];
      ZeroValue(front, b);
      MulMonotone(1, Value(front, b), b);
      assert forall i :: 0 <= i < |front| ==> ds[i] == front[i];
    }
  }

  lemma ValueOfLeadingZeros(k: nat, ds: seq<nat>, b: nat)
    ensures Value(Zeros(k) + ds, b) == Value(ds, b)
  {
    ValueOfConcat(Zeros(k), ds, b);
    ValueOfZeros(k, b);
  }

  /** `padStart(k, '0')` on digits. */
  function PadLeft(ds: seq<nat>, k: nat): seq<nat> {
    Zeros(if |ds| < k then k - |ds| else 0) + ds
  }

  /** The number of zeros a digit string starts with. */
  function LeadingZeros(ds: seq<nat>): (k: nat)
    ensures k <= |ds|
    ensures ds[..k] == Zeros(k)
    ensures Canonical(ds[k..])
  {
    if ds == [] || ds[0] != 0 then 0
    else
      var k := LeadingZeros(ds[1..]);
      assert ds[..k + 1] == [0] + ds[1..][..k];
      assert ds[k + 1..] == ds[1..][k..];
      k + 1
  }

  /** A fixed-width digit string is the padded printing of the number it denotes. */
  lemma PadLeftOfValue(ds: seq<nat>, b: nat)
    requires b >= 2 && AreDigits(ds, b)
    ensures PadLeft(Digits(Value(ds, b), b), |ds|) == ds
  {
    var k := LeadingZeros(ds);
    assert ds == Zeros(k) + ds[k..];
    ValueOfLeadingZeros(k, ds[k..], b);
    DigitsOfValue(ds[k..], b);
  }

  lemma ValueOfPadLeft(n: nat, b: nat, k: nat)
    requires b >= 2 && n < Pow(b, k)
    ensures Value(PadLeft(Digits(n, b), k), b) == n
    ensures |PadLeft(Digits(n, b), k)| == k
    ensures AreDigits(PadLeft(Digits(n, b), k), b)
  {
    DigitCount(n, b, k);
    ValueOfLeadingZeros(k - |Digits(n, b)|, Digits(n, b), b);
    ValueOfDigits(n, b);
  }

  // Text of digits up to base sixteen.

  const NUMERALS := "0123456789abcdef"

  predicate IsNumeral(c: char, b: nat)
    requires b <= 16
  {
    exists d :: 0 <= d < b && NUMERALS[d] == c
  }

  predicate AreNumerals(s: string, b: nat)
    requires b <= 16
  {
    forall i :: 0 <= i < |s| ==> IsNumeral(s[i], b)
  }

  function NumeralValue(c: char): (d: nat)
    ensures d < 16
    ensures forall b: nat :: b <= 16 && IsNumeral(c, b) ==> d < b && NUMERALS[d] == c
  {
    if '0' <= c <= '9' then c as int - '0' as int
    else if 'a' <= c <= 'f' then c as int - 'a' as int + 10
    else 0
  }

  function Spell(ds: seq<nat>): (s: string)
    requires AreDigits(ds, 16)
    ensures |s| == |ds|
    ensures forall i :: 0 <= i < |s| ==> s[i] == NUMERALS[ds[i]]
  {
    seq(|ds|, i requires 0 <= i < |ds| => NUMERALS[ds[i]])
  }

  function Unspell(s: string): (ds: seq<nat>)
    ensures |ds| == |s|
    ensures forall i :: 0 <= i < |ds| ==> ds[i] == NumeralValue(s[i])
    ensures AreDigits(ds, 16)
  {
    seq(|s|, i requires 0 <= i < |s| => NumeralValue(s[i]))
  }

  lemma UnspellOfSpell(ds: seq<nat>, b: nat)
    requires b <= 16 && AreDigits(ds, b)
    ensures Unspell(Spell(ds)) == ds && AreNumerals(Spell(ds), b)
  {
    forall i | 0 <= i < |ds| ensures Unspell(Spell(ds))[i] == ds[i] && IsNumeral(Spell(ds)[i], b) {
      assert ds[i] < b;
      assert IsNumeral(NUMERALS[ds[i]], 16);
    }
  }

  lemma SpellOfUnspell(s: string, b: nat)
    requires b <= 16 && AreNumerals(s, b)
    ensures AreDigits(Unspell(s), b) && Spell(Unspell(s)) == s
  {
    forall i | 0 <= i < |s| ensures Unspell(s)[i] < b && Spell(Unspell(s))[i] == s[i] {
      assert IsNumeral(s[i], b);
    }
  }

  /** `toString()` of a non-negative integer. */
  function Decimal(n: nat): (s: string)
    ensures |s| >= 1
  {
    if n == 0 then "0" else Spell(Digits(n, 10))
  }

  /** `BigInt(s)` of decimal text. */
  function ParseDecimal(s: string): nat {
    Value(Unspell(s), 10)
  }

  /** The decimal text of an integer as a printer emits it. */
  predicate IsDecimal(s: string) {
    s == "0" || (s != "" && s[0] != '0' && AreNumerals(s, 10))
  }

  lemma DecimalRoundTrip(n: nat)
    ensures IsDecimal(Decimal(n)) && AreNumerals(Decimal(n), 10)
    ensures ParseDecimal(Decimal(n)) == n
  {
    if n == 0 {
      assert NUMERALS[0] == '0' && IsNumeral('0', 10);
      assert Unspell("0") == [0];
      assert Value([0], 10) == 0;
    } else {
      var ds := Digits(n, 10);
      UnspellOfSpell(ds, 10);
      ValueOfDigits(n, 10);
      assert ds[0] != 0;
    }
  }

  lemma DecimalOfParse(s: string)
    requires IsDecimal(s)
    ensures Decimal(ParseDecimal(s)) == s
  {
    if s == "0" {
      assert Unspell("0") == [0];
      assert Value([0], 10) == 0;
    } else {
      SpellOfUnspell(s, 10);
      assert IsNumeral(s[0], 10);
      DigitsOfValue(Unspell(s), 10);
    }
  }
}
