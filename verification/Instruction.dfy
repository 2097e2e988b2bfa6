/** Instruction text to payment intent: `agent/src/payment/parse-instruction.ts`. */
module Instruction {
  import opened Prelude
  import opened Radix
  import opened Amount

  const MAX_INSTRUCTION_LENGTH: nat := 2_000

  datatype PaymentIntent = PaymentIntent(recipient: string, amountUsdc: string)

  datatype RecipientLabel = RecipientLabel(title: string, address: string)

  datatype Clarification =
    | BadLength | NoMatch | BadAmount | ChooseRecipient
    | Unsafe | Incomplete | ChooseApproved | AskedByModel(message: string)

  datatype ParseResult = Payment(intent: PaymentIntent) | Clarify(why: Clarification)

  /** What the model answered, after the schema check. */
  datatype ModelAnswer =
    | Malformed
    | ModelClarifies(message: Option<string>)
    | ModelPays(recipient: Option<string>, amountUsdc: Option<string>)

  /** The EIP-55 spelling of an address, from its lower-case text. */
  type Checksum = string -> string

  /** It changes the case of letters only, and leaves the prefix of an address alone. */
  ghost predicate IsChecksum(cs: Checksum) {
    forall a :: Lower(cs(a)) == Lower(a) && (HasAddressShape(a) ==> HasAddressShape(cs(a)))
  }

  predicate IsSpace(c: char) {
    || '\t' <= c <= '\r' || c == ' ' || c == '\U{00A0}' || c == '\U{1680}' || '\U{2000}' <= c <= '\U{200A}'
    || c == '\U{2028}' || c == '\U{2029}' || c == '\U{202F}' || c == '\U{205F}' || c == '\U{3000}' || c == '\U{FEFF}'
  }

  predicate IsLineEnd(c: char) {
    c == '\n' || c == '\r' || c == '\U{2028}' || c == '\U{2029}'
  }

  function SkipSpaces(s: string): (r: string)
    ensures |r| <= |s|
    ensures r != "" ==> !IsSpace(r[0])
  {
    if s != "" && IsSpace(s[0]) then SkipSpaces(s[1..]) else s
  }

  function DropTrailing(s: string): string {
    if s != "" && IsSpace(s[|s| - 1]) then DropTrailing(s[..|s| - 1]) else s
  }

  function Trim(s: string): string {
    DropTrailing(SkipSpaces(s))
  }

  /** The length of the run of non-spaces a text starts with. */
  function TokenLength(s: string): (k: nat)
    ensures k <= |s|
  {
    if s == "" || IsSpace(s[0]) then 0 else 1 + TokenLength(s[1..])
  }

  /** One or more spaces. */
  function Spaces(s: string): Option<string> {
    if s != "" && IsSpace(s[0]) then Some(SkipSpaces(s)) else None
  }

  /** A fixed word, in any case. */
  function Word(s: string, word: string): Option<string> {
    if |word| <= |s| && Lower(s[..|word|]) == word then Some(s[|word|..]) else None
  }

  function Verb(s: string): Option<string> {
    match Word(s, "pay")
    case Some(rest) => Some(rest)
    case None => match Word(s, "send")
      case Some(rest) => Some(rest)
      case None => Word(s, "transfer")
  }

  /** The amount token and the recipient text of an instruction in the fixed form. */
  function Groups(text: string): Option<(string, string)> {
    match Verb(text) case None => None case Some(a) =>
    match Spaces(a) case None => None case Some(b) =>
      var token := b[..TokenLength(b)];
      if token == "" then None else
      match Spaces(b[|token|..]) case None => None case Some(c) =>
      match Word(c, "usdc") case None => None case Some(d) =>
      match Spaces(d) case None => None case Some(e) =>
      match Word(e, "to") case None => None case Some(f) =>
      match Spaces(f) case None => None case Some(g) =>
        if g == "" || exists i :: 0 <= i < |g| && IsLineEnd(g[i]) then None else Some((token, Trim(g)))
  }

  predicate IsHexChar(c: char) {
    '0' <= c <= '9' || 'a' <= c <= 'f' || 'A' <= c <= 'F'
  }

  predicate HasAddressShape(s: string) {
    |s| == 42 && s[..2] == "0x" && forall i :: 2 <= i < 42 ==> IsHexChar(s[i])
  }

  /** Lower-case text, or text in its EIP-55 spelling. */
  predicate IsAddress(s: string, cs: Checksum) {
    HasAddressShape(s) && (Lower(s) == s || cs(Lower(s)) == s)
  }

  function ByAddress(recipients: seq<RecipientLabel>, address: string): (r: seq<RecipientLabel>)
    ensures forall x :: x in r ==> x in recipients
  {
    Filter(recipients, (r: RecipientLabel) => SameText(r.address, address))
  }

  function ByLabel(recipients: seq<RecipientLabel>, title: string): (r: seq<RecipientLabel>)
    ensures forall x :: x in r ==> x in recipients
  {
    Filter(recipients, (r: RecipientLabel) => SameText(r.title, title))
  }

  function ParseDeterministically(text: string, recipients: seq<RecipientLabel>, allowAny: bool,
                                  cs: Checksum): Option<ParseResult> {
    match Groups(text)
    case None => None
    case Some((amount, requested)) => Some(
      if ParseUsdc(amount).Err? then Clarify(BadAmount)
      else if IsAddress(requested, cs) then
        var address := cs(Lower(requested));
        if allowAny then Payment(PaymentIntent(address, amount))
        else OnlyMatch(ByAddress(recipients, address), amount)
      else OnlyMatch(ByLabel(recipients, requested), amount))
  }

  function OnlyMatch(matches: seq<RecipientLabel>, amount: string): ParseResult {
    if |matches| == 1 then Payment(PaymentIntent(matches[0].address, amount)) else Clarify(ChooseRecipient)
  }

  function ValidateModelResult(answer: ModelAnswer, recipients: seq<RecipientLabel>, allowAny: bool,
                               cs: Checksum): ParseResult {
    match answer
    case Malformed => Clarify(Unsafe)
    case ModelClarifies(message) =>
      var shown := if message.Some? then message.value[..Min(|message.value|, 300)] else "";
      Clarify(AskedByModel(if shown == "" then "Clarify the payment instruction." else shown))
    case ModelPays(recipient, amount) =>
      if recipient.None? || amount.None? then Clarify(Incomplete)
      else
        var spelled := if IsAddress(recipient.value, cs) then cs(Lower(recipient.value)) else recipient.value;
        if !IsAddress(spelled, cs) then Clarify(Incomplete)
        else
          var intent := PaymentIntent(cs(Lower(spelled)), amount.value);
          if ParseUsdc(intent.amountUsdc).Err? then Clarify(BadAmount)
          else if allowAny || exists i ::
              0 <= i < |recipients| && SameText(recipients[i].address, intent.recipient) then Payment(intent)
          else Clarify(ChooseApproved)
  }

  /** `model` is the model's answer, when one is configured. */
  function ParseInstruction(text: string, recipients: seq<RecipientLabel>, model: Option<ModelAnswer>, allowAny: bool,
                            cs: Checksum): ParseResult {
    var input := Trim(text);
    if |input| == 0 || |input| > MAX_INSTRUCTION_LENGTH then Clarify(BadLength)
    else match ParseDeterministically(input, recipients, allowAny, cs)
      case Some(result) => result
      case None => if model.None? then Clarify(NoMatch) else ValidateModelResult(model.value, recipients, allowAny, cs)
  }

  // -- Containment -------------------------------------------------------------------------------

  predicate IsApproved(recipients: seq<RecipientLabel>, address: string) {
    exists i :: 0 <= i < |recipients| && SameText(recipients[i].address, address)
  }

  lemma OnlyMatchIsApproved(recipients: seq<RecipientLabel>, matches: seq<RecipientLabel>)
    requires |matches| == 1 && matches[0] in recipients
    ensures IsApproved(recipients, matches[0].address)
  {
    var i :| 0 <= i < |recipients| && recipients[i] == matches[0];
    assert SameText(recipients[i].address, matches[0].address);
  }

  /**
   * Whatever the text says and whatever the model answers, a payment has an amount the parser of
   * amounts accepts and, unless any recipient is allowed, a recipient of the approved list.
   */
  lemma PaymentsAreContained(text: string, recipients: seq<RecipientLabel>, model: Option<ModelAnswer>, allowAny: bool,
                             cs: Checksum)
    requires ParseInstruction(text, recipients, model, allowAny, cs).Payment?
    ensures var intent := ParseInstruction(text, recipients, model, allowAny, cs).intent;
            ParseUsdc(intent.amountUsdc).Ok? && (allowAny || IsApproved(recipients, intent.recipient))
  {
    hide ParseUsdc, Groups, Trim, IsAddress;
    var groups := Groups(Trim(text));
    if groups.Some? {
      var requested := groups.value.1;
      var matches := if IsAddress(requested, cs) then ByAddress(recipients, cs(Lower(requested)))
                     else ByLabel(recipients, requested);
      if |matches| == 1 {
        assert matches[0] in matches;
        OnlyMatchIsApproved(recipients, matches);
      }
    }
  }

  lemma PaymentsNameSomeone(text: string, recipients: seq<RecipientLabel>, model: Option<ModelAnswer>, allowAny: bool,
                            cs: Checksum)
    requires IsChecksum(cs) && forall i :: 0 <= i < |recipients| ==> recipients[i].address != ""
    requires ParseInstruction(text, recipients, model, allowAny, cs).Payment?
    ensures ParseInstruction(text, recipients, model, allowAny, cs).intent.recipient != ""
  {
    hide ParseUsdc, Groups, Trim, IsAddress, ByAddress, ByLabel, OnlyMatch;
    var groups := Groups(Trim(text));
    if groups.Some? {
      var (amount, requested) := groups.value;
      OnlyMatchNamesSomeone(recipients, ByLabel(recipients, requested), amount);
      OnlyMatchNamesSomeone(recipients, ByAddress(recipients, cs(Lower(requested))), amount);
      SpellingIsSomeone(requested, cs);
    }
    if model.Some? && model.value.ModelPays? && model.value.recipient.Some? {
      var named := model.value.recipient.value;
      SpellingIsSomeone(named, cs);
      SpellingIsSomeone(cs(Lower(named)), cs);
    }
  }

  lemma OnlyMatchNamesSomeone(recipients: seq<RecipientLabel>, matches: seq<RecipientLabel>, amount: string)
    requires forall i :: 0 <= i < |recipients| ==> recipients[i].address != ""
    requires forall r :: r in matches ==> r in recipients
    ensures OnlyMatch(matches, amount).Payment? ==> OnlyMatch(matches, amount).intent.recipient != ""
  {
    if |matches| == 1 {
      assert matches[0] in recipients;
    }
  }

  lemma SpellingIsSomeone(s: string, cs: Checksum)
    requires IsChecksum(cs)
    ensures IsAddress(s, cs) ==> cs(Lower(s)) != ""
  {
    assert Lower(cs(Lower(s))) == Lower(Lower(s));
  }

  // -- The app's own text ------------------------------------------------------------------------

  /** The instruction the review screen submits (`web/src/components/Dashboard.tsx`). */
  function Printed(amountUsdc: string, destination: string): string {
    "Pay " + amountUsdc + " USDC to " + destination
  }

  predicate IsToken(s: string) {
    s != "" && forall i :: 0 <= i < |s| ==> !IsSpace(s[i])
  }

  lemma {:induction false} TokenLengthIs(token: string, rest: string)
    requires forall i :: 0 <= i < |token| ==> !IsSpace(token[i])
    requires rest == "" || IsSpace(rest[0])
    ensures TokenLength(token + rest) == |token|
  {
    if token == "" {
      assert token + rest == rest;
    } else {
      assert (token + rest)[1..] == token[1..] + rest;
      TokenLengthIs(token[1..], rest);
    }
  }

  lemma OneSpace(s: string, rest: string)
    requires s == " " + rest && rest != "" && !IsSpace(rest[0])
    ensures Spaces(s) == Some(rest)
  {
    assert s[1..] == rest;
    assert SkipSpaces(rest) == rest;
  }

  lemma ReadWord(s: string, spelled: string, word: string, rest: string)
    requires s == spelled + rest && Lower(spelled) == word
    ensures Word(s, word) == Some(rest)
  {
    assert s[..|word|] == spelled && s[|word|..] == rest;
  }

  lemma Spellings()
    ensures Lower("Pay") == "pay" && Lower("USDC") == "usdc" && Lower("to") == "to"
  {
  }

  lemma TrimOfToken(s: string)
    requires s != "" && !IsSpace(s[0]) && !IsSpace(s[|s| - 1])
    ensures Trim(s) == s
  {
  }

  /** The tail of the fixed form, after the amount. */
  lemma TailOfPrinted(c: string, destination: string)
    requires c == "USDC to " + destination && IsToken(destination)
    ensures Word(c, "usdc") == Some(" to " + destination)
    ensures Spaces(" to " + destination) == Some("to " + destination)
    ensures Word("to " + destination, "to") == Some(" " + destination)
    ensures Spaces(" " + destination) == Some(destination)
  {
    hide Word, Spaces, Lower;
    var f := " " + destination;
    var e := "to" + f;
    var d := " " + e;
    assert c == "USDC" + d && d == " to " + destination && e == "to " + destination;
    Spellings();
    ReadWord(c, "USDC", "usdc", d);
    OneSpace(d, e);
    ReadWord(e, "to", "to", f);
    OneSpace(f, destination);
  }

  /** The head of the fixed form, up to the amount. */
  lemma HeadOfPrinted(text: string, amount: string, c: string)
    requires text == "Pay " + amount + " " + c && IsToken(amount) && c != "" && !IsSpace(c[0])
    ensures Verb(text) == Some(" " + amount + " " + c)
    ensures var b := amount + " " + c;
            && Spaces(" " + amount + " " + c) == Some(b)
            && b[..TokenLength(b)] == amount
            && Spaces(b[|amount|..]) == Some(c)
  {
    hide Word, Spaces, Lower, TokenLength;
    var rest := " " + c;
    var b := amount + rest;
    var a := " " + b;
    assert text == "Pay" + a && a == " " + amount + " " + c && b == amount + " " + c;
    Spellings();
    ReadWord(text, "Pay", "pay", a);
    OneSpace(a, b);
    TokenLengthIs(amount, rest);
    assert b[..|amount|] == amount && b[|amount|..] == rest;
    OneSpace(rest, c);
  }

  lemma GroupsOfPrinted(amount: string, destination: string)
    requires IsToken(amount) && IsToken(destination)
    ensures Trim(Printed(amount, destination)) == Printed(amount, destination)
    ensures Groups(Printed(amount, destination)) == Some((amount, destination))
  {
    hide Word, Spaces, Verb, Trim, TokenLength, IsSpace;
    var c := "USDC to " + destination;
    var text := Printed(amount, destination);
    assert text == "Pay " + amount + " " + c;
    assert !IsSpace('P') && !IsSpace('U') by { NotSpaces(); }
    TrimOfToken(text);
    TrimOfToken(destination);
    HeadOfPrinted(text, amount, c);
    TailOfPrinted(c, destination);
    NoLineEnds(destination);
  }

  lemma NotSpaces()
    ensures !IsSpace('P') && !IsSpace('U')
  {
  }

  lemma NoLineEnds(s: string)
    requires IsToken(s)
    ensures forall i :: 0 <= i < |s| ==> !IsLineEnd(s[i])
  {
  }

  lemma AddressIsToken(s: string)
    requires HasAddressShape(s)
    ensures IsToken(s)
  {
    forall i | 0 <= i < |s| ensures !IsSpace(s[i]) {
      if i < 2 {
        assert s[i] == s[..2][i];
      } else {
        assert IsHexChar(s[i]);
      }
    }
  }

  lemma TenToThe78()
    ensures Pow(10, 78) > MAX_UINT256
  {
    PowersOfTen();
    hide Pow;
    PowerAdds(18, 18);
    PowerAdds(36, 36);
    PowerAdds(72, 6);
    assert Pow(10, 78) ==
           1_000_000_000_000_000_000_000_000_000_000_000_000_000_000_000_000_000_000_000_000_000_000_000_000_000_000;
  }

  lemma {:induction false} PowerAdds(j: nat, k: nat)
    ensures Pow(10, j + k) == Pow(10, j) * Pow(10, k)
    decreases k
  {
    if k > 0 {
      PowerAdds(j, k - 1);
    }
  }

  /** A printed amount is one short word. */
  lemma PrintedAmountIsToken(units: nat)
    requires 0 < units <= MAX_UINT256
    ensures FormatUsdc(units).Ok? && IsToken(FormatUsdc(units).value) && |FormatUsdc(units).value| <= 85
  {
    hide FormatUsdc, FullFraction, AreNumerals, Decimal, StripZeros, Digits, IsDecimal, ParseDecimal, Value, IsSpace,
         Pow;
    FormatUsdcParts(units);
    DecimalRoundTrip(units / 1_000_000);
    FullFractionDenotes(units, 6);
    StrippedIsNumerals(FullFraction(units, 6));
    var whole, fraction := Decimal(units / 1_000_000), StripZeros(FullFraction(units, 6));
    DecimalLength(units / 1_000_000);
    NumeralsAreToken(whole);
    NumeralsAreToken(fraction);
    DotIsNoSpace();
  }

  lemma DotIsNoSpace()
    ensures !IsSpace('.')
  {
  }

  lemma DecimalLength(n: nat)
    requires n <= MAX_UINT256
    ensures |Decimal(n)| <= 78
  {
    TenToThe78();
    hide Pow;
    DigitCount(n, 10, 78);
  }

  lemma NumeralsAreToken(s: string)
    requires AreNumerals(s, 10)
    ensures forall i :: 0 <= i < |s| ==> !IsSpace(s[i])
  {
    forall i | 0 <= i < |s| ensures !IsSpace(s[i]) {
      assert IsNumeral(s[i], 10);
    }
  }

  /** The result is a payment of exactly this amount to exactly this address. */
  predicate Pays(result: ParseResult, destination: string, units: nat) {
    && result.Payment?
    && SameText(result.intent.recipient, destination)
    && ParseUsdc(result.intent.amountUsdc) == Ok(units)
  }

  /** When the fixed form leads to the address it names: the branch the parser takes on its spelling. */
  predicate LeadsTo(destination: string, recipients: seq<RecipientLabel>, allowAny: bool, cs: Checksum) {
    if IsAddress(destination, cs) then allowAny || |ByAddress(recipients, destination)| == 1
    else
      var named := ByLabel(recipients, destination);
      |named| == 1 && SameText(named[0].address, destination)
  }

  lemma ByAddressOfSpelling(recipients: seq<RecipientLabel>, destination: string, cs: Checksum)
    requires IsChecksum(cs)
    ensures SameText(cs(Lower(destination)), destination)
    ensures ByAddress(recipients, cs(Lower(destination))) == ByAddress(recipients, destination)
  {
    LowerIsIdempotent(destination);
    FilterCongruence(recipients, (r: RecipientLabel) => SameText(r.address, cs(Lower(destination))),
                     (r: RecipientLabel) => SameText(r.address, destination));
  }

  lemma DeterministicOnPrinted(amount: string, units: nat, destination: string, recipients: seq<RecipientLabel>,
                               allowAny: bool, cs: Checksum)
    requires IsChecksum(cs) && ParseUsdc(amount) == Ok(units)
    requires Groups(Printed(amount, destination)) == Some((amount, destination))
    ensures var result := ParseDeterministically(Printed(amount, destination), recipients, allowAny, cs);
            result.Some? && (Pays(result.value, destination, units) <==> LeadsTo(destination, recipients, allowAny, cs))
  {
    hide ParseUsdc, Groups, Printed, Lower, IsAddress;
    ByAddressOfSpelling(recipients, destination, cs);
    var matches := ByAddress(recipients, destination);
    if |matches| == 1 {
      assert matches[0] in matches;
    }
  }

  /**
   * The text the app prints for an amount and an address is read back, without the model, as a payment
   * of that amount to that address exactly when the address is lower-case or EIP-55 text and is allowed
   * or approved once, or else is the label of the one entry with that address.
   */
  lemma PrintedInstructionIsRead(units: nat, destination: string, recipients: seq<RecipientLabel>,
                                 model: Option<ModelAnswer>, allowAny: bool, cs: Checksum)
    requires IsChecksum(cs) && 0 < units <= MAX_UINT256 && HasAddressShape(destination)
    ensures FormatUsdc(units).Ok?
    ensures var result := ParseInstruction(Printed(FormatUsdc(units).value, destination), recipients, model, allowAny,
                                           cs);
            Pays(result, destination, units) <==> LeadsTo(destination, recipients, allowAny, cs)
  {
    hide ParseUsdc, FormatUsdc, Groups, Trim, LeadsTo, Pays, ParseDeterministically, HasAddressShape, IsChecksum;
    ParseOfFormat(units);
    PrintedAmountIsToken(units);
    assert |destination| == 42 by { AddressLength(destination); }
    AddressIsToken(destination);
    var amount := FormatUsdc(units).value;
    GroupsOfPrinted(amount, destination);
    DeterministicOnPrinted(amount, units, destination, recipients, allowAny, cs);
  }

  lemma AddressLength(s: string)
    requires HasAddressShape(s)
    ensures |s| == 42
  {
  }

  const CAPITALS: string := "0x" + seq(40, i => 'A')

  /**
   * The review screen accepts any forty hexadecimal digits, the parser only two spellings of them: in
   * any other spelling an address is refused even where any recipient is allowed, unless it is also the
   * label of an entry.
   */
  lemma OtherSpellingIsRefused(units: nat, destination: string, recipients: seq<RecipientLabel>,
                               model: Option<ModelAnswer>, allowAny: bool, cs: Checksum)
    requires 0 < units <= MAX_UINT256 && IsChecksum(cs) && HasAddressShape(destination)
    requires Lower(destination) != destination && cs(Lower(destination)) != destination
             && ByLabel(recipients, destination) == []
    ensures FormatUsdc(units).Ok?
    ensures !Pays(ParseInstruction(Printed(FormatUsdc(units).value, destination), recipients, model, allowAny, cs),
                  destination, units)
  {
    assert !LeadsTo(destination, recipients, allowAny, cs) by {
      hide HasAddressShape, ByLabel;
    }
    hide ParseInstruction, Pays, FormatUsdc, LeadsTo, Lower, HasAddressShape;
    PrintedInstructionIsRead(units, destination, recipients, model, allowAny, cs);
  }

  /** So all capitals are refused, whichever letters EIP-55 capitalises, unless it is all of them. */
  lemma CapitalAddressIsRefused(units: nat, recipients: seq<RecipientLabel>, model: Option<ModelAnswer>, allowAny: bool,
                                cs: Checksum)
    requires 0 < units <= MAX_UINT256 && IsChecksum(cs) && cs(Lower(CAPITALS)) != CAPITALS
             && ByLabel(recipients, CAPITALS) == []
    ensures HasAddressShape(CAPITALS) && FormatUsdc(units).Ok?
    ensures !Pays(ParseInstruction(Printed(FormatUsdc(units).value, CAPITALS), recipients, model, allowAny, cs),
                  CAPITALS, units)
  {
    assert |CAPITALS| == 42;
    forall i | 2 <= i < 42 ensures IsHexChar(CAPITALS[i]) {
    }
    assert CAPITALS[2] == 'A' && Lower(CAPITALS)[2] == 'a';
    hide ParseInstruction, Pays, FormatUsdc, ByLabel, IsChecksum, Lower;
    OtherSpellingIsRefused(units, CAPITALS, recipients, model, allowAny, cs);
  }

  lemma LowerIsChecksum()
    ensures IsChecksum(Lower)
  {
    forall a ensures Lower(Lower(a)) == Lower(a) && (HasAddressShape(a) ==> HasAddressShape(Lower(a))) {
      LowerIsIdempotent(a);
      if HasAddressShape(a) {
        LowerAddress(a);
      }
    }
  }

  lemma LowerAddress(a: string)
    requires HasAddressShape(a)
    ensures HasAddressShape(Lower(a))
  {
    assert a[0] == a[..2][0] == '0' && a[1] == a[..2][1] == 'x';
    assert Lower(a)[..2] == "0x";
    forall i | 2 <= i < 42 ensures IsHexChar(Lower(a)[i]) {
      assert IsHexChar(a[i]);
    }
  }
}
