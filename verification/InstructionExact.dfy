/** Exactly which instructions are payments, of what, to whom: the fixed form and the model's path. */
module InstructionExact {
  import opened Prelude
  import opened Radix
  import opened Amount
  import opened Instruction

  // -- The fixed form ----------------------------------------------------------------------------

  /** A verb, an amount, the words `USDC` and `to`, and the rest, with spaces between. */
  datatype Pieces = Pieces(
    verb: string, s1: string, amount: string, s2: string, usdc: string, s3: string, to: string, s4: string,
      rest: string)
  {
    function FromTo(): string { to + s4 + rest }
    function FromUsdc(): string { usdc + s3 + FromTo() }
    function FromAmount(): string { amount + s2 + FromUsdc() }
    function Text(): string { verb + s1 + FromAmount() }
  }

  predicate AreSpaces(s: string) {
    s != "" && forall i :: 0 <= i < |s| ==> IsSpace(s[i])
  }

  predicate IsFixedForm(p: Pieces) {
    && (Lower(p.verb) == "pay" || Lower(p.verb) == "send" || Lower(p.verb) == "transfer")
    && AreSpaces(p.s1) && IsToken(p.amount) && AreSpaces(p.s2)
    && Lower(p.usdc) == "usdc" && AreSpaces(p.s3) && Lower(p.to) == "to" && AreSpaces(p.s4)
    && p.rest != "" && !IsSpace(p.rest[0]) && forall i :: 0 <= i < |p.rest| ==> !IsLineEnd(p.rest[i])
  }

  lemma {:induction false} SkipsSpaces(s: string, rest: string)
    requires (forall i :: 0 <= i < |s| ==> IsSpace(s[i])) && (rest != "" ==> !IsSpace(rest[0]))
    ensures SkipSpaces(s + rest) == rest
  {
    if s == "" {
      assert s + rest == rest;
    } else {
      assert (s + rest)[1..] == s[1..] + rest;
      SkipsSpaces(s[1..], rest);
    }
  }

  lemma SpacesAreRead(s: string, spaces: string, rest: string)
    requires s == spaces + rest && AreSpaces(spaces) && rest != "" && !IsSpace(rest[0])
    ensures Spaces(s) == Some(rest)
  {
    hide IsSpace;
    SkipsSpaces(spaces, rest);
  }

  lemma {:induction false} SkippedAreSpaces(s: string)
    ensures var rest := SkipSpaces(s);
            && s == s[..|s| - |rest|] + rest && forall i :: 0 <= i < |s| - |rest| ==> IsSpace(s[i])
  {
    hide IsSpace;
    if s != "" && IsSpace(s[0]) {
      SkippedAreSpaces(s[1..]);
      assert forall i :: 1 <= i < |s| ==> s[i] == s[1..][i - 1];
    }
  }

  lemma ReadSpaces(s: string) returns (spaces: string)
    requires Spaces(s).Some?
    ensures AreSpaces(spaces) && s == spaces + Spaces(s).value
    ensures Spaces(s).value != "" ==> !IsSpace(Spaces(s).value[0])
  {
    SkippedAreSpaces(s);
    hide IsSpace;
    spaces := s[..|s| - |SkipSpaces(s)|];
    assert SkipSpaces(s) == SkipSpaces(s[1..]);
  }

  lemma {:induction false} TokenIsRead(s: string)
    ensures var k := TokenLength(s);
            && (forall i :: 0 <= i < k ==> !IsSpace(s[i])) && (k < |s| ==> IsSpace(s[k]))
  {
    hide IsSpace;
    if s != "" && !IsSpace(s[0]) {
      TokenIsRead(s[1..]);
      assert forall i :: 1 <= i < |s| ==> s[i] == s[1..][i - 1];
    }
  }

  lemma WordIsRead(s: string, word: string)
    requires Word(s, word).Some?
    ensures s == s[..|word|] + Word(s, word).value && Lower(s[..|word|]) == word
  {
  }

  lemma VerbIsRead(p: Pieces)
    requires Lower(p.verb) == "pay" || Lower(p.verb) == "send" || Lower(p.verb) == "transfer"
    ensures Verb(p.Text()) == Some(p.s1 + p.FromAmount())
  {
    hide p.FromAmount;
    var text, rest := p.Text(), p.s1 + p.FromAmount();
    assert text == p.verb + rest;
    VerbOf(text, p.verb, rest);
  }

  lemma VerbOf(text: string, verb: string, rest: string)
    requires text == verb + rest && (Lower(verb) == "pay" || Lower(verb) == "send" || Lower(verb) == "transfer")
    ensures Verb(text) == Some(rest)
  {
    ReadWord(text, verb, Lower(verb), rest);
    if Lower(verb) != "pay" {
      assert |text| >= 4 && LowerChar(text[0]) == Lower(verb)[0] != 'p';
      assert Lower(text[..3])[0] == LowerChar(text[0]);
    }
    if Lower(verb) == "transfer" {
      assert LowerChar(text[0]) == Lower(verb)[0] == 't';
      assert Lower(text[..4])[0] == LowerChar(text[0]);
    }
  }

  /** A text in the fixed form is split into its amount and its destination. */
  lemma FixedFormIsRead(p: Pieces)
    requires IsFixedForm(p)
    ensures Groups(p.Text()) == Some((p.amount, Trim(p.rest)))
  {
    NoSpaceStarts(p);
    hide IsSpace, Trim, Lower, Verb;
    VerbIsRead(p);
    SpacesAreRead(p.s1 + p.FromAmount(), p.s1, p.FromAmount());
    var b, c := p.FromAmount(), p.s2 + p.FromUsdc();
    assert b == p.amount + c;
    TokenLengthIs(p.amount, c);
    assert b[..|p.amount|] == p.amount && b[|p.amount|..] == c;
    SpacesAreRead(c, p.s2, p.FromUsdc());
    ReadWord(p.FromUsdc(), p.usdc, "usdc", p.s3 + p.FromTo());
    SpacesAreRead(p.s3 + p.FromTo(), p.s3, p.FromTo());
    ReadWord(p.FromTo(), p.to, "to", p.s4 + p.rest);
    SpacesAreRead(p.s4 + p.rest, p.s4, p.rest);
    hide Spaces, Word, TokenLength;
  }

  lemma NoSpaceStarts(p: Pieces)
    requires IsFixedForm(p)
    ensures p.FromAmount() != "" && !IsSpace(p.FromAmount()[0])
    ensures p.FromUsdc() != "" && !IsSpace(p.FromUsdc()[0]) && p.FromUsdc() == p.usdc + (p.s3 + p.FromTo())
    ensures p.FromTo() != "" && !IsSpace(p.FromTo()[0]) && p.FromTo() == p.to + (p.s4 + p.rest)
  {
    assert LowerChar(p.usdc[0]) == Lower(p.usdc)[0] == 'u';
    assert LowerChar(p.to[0]) == Lower(p.to)[0] == 't';
    assert p.FromUsdc()[0] == p.usdc[0] && p.FromTo()[0] == p.to[0] && p.FromAmount()[0] == p.amount[0];
  }

  /** And whatever is split is in it. */
  lemma ReadIsFixedForm(text: string) returns (p: Pieces)
    requires Groups(text).Some?
    ensures IsFixedForm(p) && text == p.Text() && Groups(text).value == (p.amount, Trim(p.rest))
  {
    hide IsSpace, Lower, Trim, SkipSpaces, TokenLength, Spaces, Word, Verb;
    var a := Verb(text).value;
    var verb := ReadVerb(text);
    var b := Spaces(a).value;
    var s1 := ReadSpaces(a);
    TokenIsRead(b);
    var k := TokenLength(b);
    var amount := b[..k];
    var c := Spaces(b[k..]).value;
    var s2 := ReadSpaces(b[k..]);
    var d := Word(c, "usdc").value;
    WordIsRead(c, "usdc");
    var e := Spaces(d).value;
    var s3 := ReadSpaces(d);
    var f := Word(e, "to").value;
    WordIsRead(e, "to");
    var g := Spaces(f).value;
    var s4 := ReadSpaces(f);
    p := Pieces(verb, s1, amount, s2, c[..4], s3, e[..2], s4, g);
    assert b == amount + b[k..];
    assert p.FromTo() == e && p.FromUsdc() == c && p.FromAmount() == b && p.Text() == text;
  }

  lemma ReadVerb(text: string) returns (verb: string)
    requires Verb(text).Some?
    ensures text == verb + Verb(text).value
    ensures Lower(verb) == "pay" || Lower(verb) == "send" || Lower(verb) == "transfer"
  {
    hide Lower;
    var word := if Word(text, "pay").Some? then "pay" else if Word(text, "send").Some? then "send" else "transfer";
    WordIsRead(text, word);
    verb := text[..|word|];
  }

  /** The fixed form is exactly what the parser reads without the model. */
  lemma FixedFormExactly(text: string, amount: string, requested: string)
    ensures Groups(text) == Some((amount, requested)) <==>
            exists p :: IsFixedForm(p) && text == p.Text() && amount == p.amount && requested == Trim(p.rest)
  {
    hide Groups, IsFixedForm, Trim;
    if Groups(text) == Some((amount, requested)) {
      var p := ReadIsFixedForm(text);
    }
    if exists p :: IsFixedForm(p) && text == p.Text() && amount == p.amount && requested == Trim(p.rest) {
      var p :| IsFixedForm(p) && text == p.Text() && amount == p.amount && requested == Trim(p.rest);
      FixedFormIsRead(p);
    }
  }

  // -- Trimming ----------------------------------------------------------------------------------

  predicate AllSpaces(s: string) {
    forall i :: 0 <= i < |s| ==> IsSpace(s[i])
  }

  lemma {:induction false} DroppedAreSpaces(s: string)
    ensures var rest := DropTrailing(s);
            rest <= s && AllSpaces(s[|rest|..]) && (rest != "" ==> !IsSpace(rest[|rest| - 1]))
  {
    hide IsSpace;
    if s != "" && IsSpace(s[|s| - 1]) {
      var front := s[..|s| - 1];
      DroppedAreSpaces(front);
      var rest := DropTrailing(front);
      assert forall i :: 0 <= i < |s| - |rest| - 1 ==> s[|rest|..][i] == front[|rest|..][i];
    }
  }

  /** What is trimmed off is space, and what is left neither starts nor ends with any. */
  lemma TrimTakesTheSpaces(s: string) returns (before: string, after: string)
    ensures s == before + Trim(s) + after && AllSpaces(before) && AllSpaces(after)
    ensures Trim(s) != "" ==> !IsSpace(Trim(s)[0]) && !IsSpace(Trim(s)[|Trim(s)| - 1])
  {
    hide IsSpace;
    SkippedAreSpaces(s);
    var rest := SkipSpaces(s);
    DroppedAreSpaces(rest);
    before, after := s[..|s| - |rest|], rest[|Trim(s)|..];
    assert rest == Trim(s) + after;
  }

  // -- Who is paid -------------------------------------------------------------------------------

  predicate HasAddress(r: RecipientLabel, address: string) {
    Lower(r.address) == Lower(address)
  }

  predicate HasTitle(r: RecipientLabel, title: string) {
    Lower(r.title) == Lower(title)
  }

  /** The only entry with this address. */
  predicate IsOnlyAddress(recipients: seq<RecipientLabel>, i: int, address: string) {
    && 0 <= i < |recipients| && HasAddress(recipients[i], address)
    && forall j :: 0 <= j < |recipients| && HasAddress(recipients[j], address) ==> j == i
  }

  /** The only entry with this title. */
  predicate IsOnlyTitle(recipients: seq<RecipientLabel>, i: int, title: string) {
    && 0 <= i < |recipients| && HasTitle(recipients[i], title)
    && forall j :: 0 <= j < |recipients| && HasTitle(recipients[j], title) ==> j == i
  }

  /** Lower-case or EIP-55 text of an address. */
  predicate IsSpelledAddress(s: string, cs: Checksum) {
    && |s| == 42 && s[0] == '0' && s[1] == 'x' && (forall i :: 2 <= i < 42 ==> IsHexChar(s[i]))
    && (s == Lower(s) || s == cs(Lower(s)))
  }

  lemma AddressesAreSpelled(s: string, cs: Checksum)
    ensures IsAddress(s, cs) <==> IsSpelledAddress(s, cs)
  {
    if |s| == 42 {
      assert s[..2][0] == s[0] && s[..2][1] == s[1];
      assert s[0] == '0' && s[1] == 'x' ==> s[..2] == "0x";
    }
  }

  lemma AddressesMatched(recipients: seq<RecipientLabel>, text: string, spelled: string)
    requires SameText(text, spelled)
    ensures |ByAddress(recipients, spelled)| == 1 <==> exists i :: IsOnlyAddress(recipients, i, text)
    ensures forall i :: IsOnlyAddress(recipients, i, text) ==> ByAddress(recipients, spelled) == [recipients[i]]
  {
    hide Lower;
    var keep := (r: RecipientLabel) => SameText(r.address, spelled);
    assert forall r: RecipientLabel :: keep(r) <==> HasAddress(r, text);
    FilterSingle(recipients, keep);
    hide Filter, HasAddress;
    assert ByAddress(recipients, spelled) == Filter(recipients, keep);
    assert forall i :: IsOnly(recipients, keep, i) <==> IsOnlyAddress(recipients, i, text);
  }

  lemma TitlesMatched(recipients: seq<RecipientLabel>, text: string)
    ensures |ByLabel(recipients, text)| == 1 <==> exists i :: IsOnlyTitle(recipients, i, text)
    ensures forall i :: IsOnlyTitle(recipients, i, text) ==> ByLabel(recipients, text) == [recipients[i]]
  {
    hide Lower;
    var keep := (r: RecipientLabel) => SameText(r.title, text);
    assert forall r: RecipientLabel :: keep(r) <==> HasTitle(r, text);
    FilterSingle(recipients, keep);
    hide Filter, HasTitle;
    assert ByLabel(recipients, text) == Filter(recipients, keep);
    assert forall i :: IsOnly(recipients, keep, i) <==> IsOnlyTitle(recipients, i, text);
  }

  /**
   * An instruction in the fixed form is a payment exactly when its amount is one and it names an address
   * that is allowed or is the address of one entry, or else the title of one entry. It then pays that
   * amount text to that address, or to the address of that one entry.
   */
  lemma FixedFormPaysExactly(text: string, recipients: seq<RecipientLabel>, model: Option<ModelAnswer>, allowAny: bool,
                             cs: Checksum, amount: string, requested: string)
    requires IsChecksum(cs) && 1 <= |Trim(text)| <= 2000 && Groups(Trim(text)) == Some((amount, requested))
    ensures var result := ParseInstruction(text, recipients, model, allowAny, cs);
            && (ParseUsdc(amount).Err? ==> result == Clarify(BadAmount))
            && (ParseUsdc(amount).Ok? && result.Clarify? ==> result == Clarify(ChooseRecipient))
            && (result.Payment? <==>
                && ParseUsdc(amount).Ok?
                && if IsSpelledAddress(requested, cs) then allowAny || exists i ::
                     IsOnlyAddress(recipients, i, requested)
                   else exists i :: IsOnlyTitle(recipients, i, requested))
            && (result.Payment? ==>
                && result.intent.amountUsdc == amount
                && (IsSpelledAddress(requested, cs) ==> SameText(result.intent.recipient, requested))
                && (!IsSpelledAddress(requested, cs) ==>
                      forall i :: IsOnlyTitle(recipients, i, requested) ==>
                        result.intent.recipient == recipients[i].address))
  {
    AddressesAreSpelled(requested, cs);
    LowerIsIdempotent(requested);
    var address := cs(Lower(requested));
    assert SameText(requested, address);
    hide ParseUsdc, Groups, Trim, Lower, IsAddress, IsSpelledAddress, IsChecksum;
    AddressesMatched(recipients, requested, address);
    TitlesMatched(recipients, requested);
    hide IsOnlyTitle;
    if exists i :: IsOnlyAddress(recipients, i, requested) {
      var i :| IsOnlyAddress(recipients, i, requested);
      assert HasAddress(recipients[i], requested);
    }
    hide IsOnlyAddress, ByAddress, ByLabel;
  }

  /**
   * Outside the fixed form the model decides, and it is a payment exactly when the model names an address
   * that is approved or any is allowed, and an amount that is one. It then pays that amount text to that
   * very address.
   */
  lemma ModelPaysExactly(text: string, recipients: seq<RecipientLabel>, answer: ModelAnswer, allowAny: bool,
                         cs: Checksum)
    requires IsChecksum(cs) && Groups(Trim(text)) == None
    ensures var result := ParseInstruction(text, recipients, Some(answer), allowAny, cs);
            && (result.Payment? <==>
                && 1 <= |Trim(text)| <= 2000
                && answer.ModelPays? && answer.recipient.Some? && answer.amountUsdc.Some?
                && IsSpelledAddress(answer.recipient.value, cs) && ParseUsdc(answer.amountUsdc.value).Ok?
                && (allowAny || exists i :: 0 <= i < |recipients| && HasAddress(recipients[i], answer.recipient.value)))
            && (result.Payment? ==>
                SameText(result.intent.recipient, answer.recipient.value)
                && result.intent.amountUsdc == answer.amountUsdc.value)
  {
    hide ParseUsdc, Groups, Trim;
    if answer.ModelPays? && answer.recipient.Some? {
      var named := answer.recipient.value;
      AddressesAreSpelled(named, cs);
      if IsAddress(named, cs) {
        SpellingIsAddress(named, cs);
      }
      hide IsAddress, IsSpelledAddress, Lower;
    }
  }

  lemma SpellingIsAddress(named: string, cs: Checksum)
    requires IsChecksum(cs) && IsAddress(named, cs)
    ensures IsAddress(cs(Lower(named)), cs) && SameText(cs(Lower(named)), named)
    ensures cs(Lower(cs(Lower(named)))) == cs(Lower(named))
  {
    LowerIsIdempotent(named);
    LowerAddress(named);
    assert Lower(cs(Lower(named))) == Lower(Lower(named));
  }

  /** What a clarification says of the rest: the length, the missing model, or the first thing wrong with its answer. */
  lemma OtherwiseClarifies(text: string, recipients: seq<RecipientLabel>, model: Option<ModelAnswer>, allowAny: bool,
                           cs: Checksum)
    requires IsChecksum(cs)
    ensures var result := ParseInstruction(text, recipients, model, allowAny, cs);
            && (Trim(text) == "" || |Trim(text)| > 2000 ==> result == Clarify(BadLength))
            && (1 <= |Trim(text)| <= 2000 && Groups(Trim(text)) == None ==>
                && (model.None? ==> result == Clarify(NoMatch))
                && (model == Some(Malformed) ==> result == Clarify(Unsafe))
                && (model.Some? && model.value.ModelPays? ==>
                      var named, amount := model.value.recipient, model.value.amountUsdc;
                      && (named.None? || amount.None? || !IsSpelledAddress(named.value, cs) ==>
                            result == Clarify(Incomplete))
                      && (named.Some? && amount.Some? && IsSpelledAddress(named.value, cs) ==>
                            if ParseUsdc(amount.value).Err? then result == Clarify(BadAmount)
                            else result.Payment? || result == Clarify(ChooseApproved))))
  {
    hide ParseUsdc, Groups, Trim;
    if model.Some? && model.value.ModelPays? && model.value.recipient.Some? {
      var named := model.value.recipient.value;
      AddressesAreSpelled(named, cs);
      if IsAddress(named, cs) {
        SpellingIsAddress(named, cs);
      }
      hide IsAddress, IsSpelledAddress, Lower;
    }
  }
}
