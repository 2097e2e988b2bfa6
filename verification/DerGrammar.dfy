/**
 * What the signature parser accepts, as a grammar: an `Ecdsa-Sig-Value` (RFC 3279, section 2.2.3) in
 * definite lengths of one to five octets (X.690, section 8.1.3), minimal or not.
 */
module DerGrammar {
  import opened Prelude
  import opened Radix
  import opened Der

  /** The octets of a signature: the three length fields and the two INTEGER contents. */
  datatype Parts = Parts(outer: seq<byte>, rLength: seq<byte>, r: seq<byte>, sLength: seq<byte>, s: seq<byte>) {
    function Body(): seq<byte> {
      [0x02] + rLength + r + [0x02] + sLength + s
    }
  }

  /** `octets` is a length field for `n`: the short form, or a count octet and at most four more. */
  predicate IsLength(octets: seq<byte>, n: int) {
    || (|octets| == 1 && octets[0] < 0x80 && n == octets[0])
    || (2 <= |octets| <= 5 && octets[0] == 0x80 + (|octets| - 1) && n == Value(octets[1..], 256))
  }

  /** `octets` is a non-negative INTEGER content, padded or not, for a scalar of the group. */
  predicate IsScalar(octets: seq<byte>, v: nat) {
    octets != [] && octets[0] < 0x80 && Value(octets, 256) == v && 1 <= v < SECP256K1_N
  }

  predicate Encodes(p: Parts, der: seq<byte>, sig: Signature) {
    && der == [0x30] + p.outer + p.Body()
    && IsLength(p.outer, |p.Body()|)
    && IsLength(p.rLength, |p.r|) && IsScalar(p.r, sig.r)
    && IsLength(p.sLength, |p.s|) && IsScalar(p.s, sig.s)
  }

  ghost predicate IsSignature(der: seq<byte>, sig: Signature) {
    exists p :: Encodes(p, der, sig)
  }

  // -- One element -------------------------------------------------------------------------------

  /** An element with this tag, content start and end stands at `offset`. */
  predicate Stands(buffer: seq<byte>, offset: nat, t: Tlv) {
    && offset + 2 <= t.contentStart <= t.end <= |buffer|
    && buffer[offset] == t.tag
    && IsLength(buffer[offset + 1..t.contentStart], t.end - t.contentStart)
  }

  lemma ReadStands(buffer: seq<byte>, offset: nat)
    requires TlvAt(buffer, offset, false).Ok?
    ensures Stands(buffer, offset, TlvAt(buffer, offset, false).value)
  {
    var t := TlvAt(buffer, offset, false).value;
    var octets := buffer[offset + 1..t.contentStart];
    var first := buffer[offset + 1];
    assert octets[0] == first;
    if first >= 0x80 {
      assert octets[1..] == buffer[offset + 2..t.contentStart];
    }
  }

  lemma StandsIsRead(buffer: seq<byte>, offset: nat, t: Tlv)
    requires Stands(buffer, offset, t)
    ensures TlvAt(buffer, offset, false) == Ok(t)
  {
    var octets := buffer[offset + 1..t.contentStart];
    assert octets[0] == buffer[offset + 1];
    if octets[0] >= 0x80 {
      assert octets[1..] == buffer[offset + 2..t.contentStart];
    }
  }

  // -- One INTEGER -------------------------------------------------------------------------------

  lemma ScalarBelow256Octets()
    ensures Pow(256, 32) > SECP256K1_N
  {
    assert Pow(256, 4) == 0x1_00000000;
    assert Pow(256, 8) == 0x1_00000000_00000000;
    assert Pow(256, 12) == 0x1_00000000_00000000_00000000;
    assert Pow(256, 16) == 0x1_00000000_00000000_00000000_00000000;
    assert Pow(256, 20) == 0x1_00000000_00000000_00000000_00000000_00000000;
    assert Pow(256, 24) == 0x1_00000000_00000000_00000000_00000000_00000000_00000000;
    assert Pow(256, 28) == 0x1_00000000_00000000_00000000_00000000_00000000_00000000_00000000;
  }

  lemma SkippedKeepsValue(octets: seq<byte>)
    requires octets != []
    ensures Value(octets[Skipped(octets)..], 256) == Value(octets, 256)
    ensures Canonical(octets[Skipped(octets)..]) || octets[Skipped(octets)..] == [0]
  {
    var k := Skipped(octets);
    LeadingAreZeros(octets);
    hide Zeros, LeadingZeros;
    ZerosInFront(octets, k);
    ValueOfLeadingZeros(k, octets[k..], 256);
  }

  lemma LeadingAreZeros(octets: seq<byte>)
    ensures forall i :: 0 <= i < LeadingZeros(octets) ==> octets[i] == 0
  {
    forall i | 0 <= i < LeadingZeros(octets) ensures octets[i] == 0 {
      assert octets[..LeadingZeros(octets)][i] == Zeros(LeadingZeros(octets))[i];
    }
  }

  lemma ZerosInFront(octets: seq<byte>, k: nat)
    requires k <= |octets| && forall i :: 0 <= i < k ==> octets[i] == 0
    ensures octets == Zeros(k) + octets[k..]
  {
  }

  /** The reader of one INTEGER accepts exactly the scalars. */
  lemma DerIntegerAccepts(octets: seq<byte>, v: nat)
    ensures DerInteger(octets) == Ok(v) <==> IsScalar(octets, v)
  {
    if octets != [] {
      var trimmed := octets[Skipped(octets)..];
      SkippedKeepsValue(octets);
      if IsScalar(octets, v) {
        ScalarBelow256Octets();
        ScalarIsShort(trimmed, v);
      }
    }
  }

  lemma ScalarIsShort(trimmed: seq<byte>, v: nat)
    requires Canonical(trimmed) || trimmed == [0]
    requires Value(trimmed, 256) == v < Pow(256, 32)
    ensures |trimmed| <= 32
  {
    if trimmed != [0] {
      DigitsOfValue(trimmed, 256);
      DigitCount(v, 256, 32);
    }
  }

  // -- The whole signature -----------------------------------------------------------------------

  /** The three elements of an accepted buffer, end to end. */
  predicate Tiles(der: seq<byte>, root: Tlv, r: Tlv, s: Tlv, sig: Signature) {
    && Stands(der, 0, root) && root.tag == TAG_SEQUENCE && root.end == |der|
    && Stands(der, root.contentStart, r) && r.tag == TAG_INTEGER
    && Stands(der, r.end, s) && s.tag == TAG_INTEGER && s.end == |der|
    && IsScalar(der[r.contentStart..r.end], sig.r)
    && IsScalar(der[s.contentStart..s.end], sig.s)
  }

  /** On acceptance the SEQUENCE is the whole buffer and the two INTEGERs tile its content. */
  lemma AcceptedTiles(der: seq<byte>, sig: Signature) returns (root: Tlv, r: Tlv, s: Tlv)
    requires ParseDerSignature(der, false) == Ok(sig)
    ensures Tiles(der, root, r, s, sig)
  {
    hide TlvAt, DerInteger, IsScalar, Stands;
    root := TlvAt(der, 0, false).value;
    ReadStands(der, 0);
    assert 0 <= root.contentStart <= root.end by { StandsBounds(der, 0, root); }
    r := TlvAt(der, root.contentStart, false).value;
    ReadStands(der, root.contentStart);
    assert 0 <= r.contentStart <= r.end <= |der| by { StandsBounds(der, root.contentStart, r); }
    s := TlvAt(der, r.end, false).value;
    ReadStands(der, r.end);
    assert 0 <= s.contentStart <= s.end <= |der| by { StandsBounds(der, r.end, s); }
    SubarrayIsSlice(der, r.contentStart, r.end);
    SubarrayIsSlice(der, s.contentStart, s.end);
    DerIntegerAccepts(der[r.contentStart..r.end], sig.r);
    DerIntegerAccepts(der[s.contentStart..s.end], sig.s);
  }

  lemma StandsBounds(buffer: seq<byte>, offset: nat, t: Tlv)
    requires Stands(buffer, offset, t)
    ensures offset + 2 <= t.contentStart <= t.end <= |buffer|
  {
  }

  lemma SubarrayIsSlice(buffer: seq<byte>, start: nat, end: nat)
    requires start <= end <= |buffer|
    ensures Subarray(buffer, start, end) == buffer[start..end]
  {
  }

  lemma TilesIsAccepted(der: seq<byte>, root: Tlv, r: Tlv, s: Tlv, sig: Signature)
    requires Tiles(der, root, r, s, sig)
    ensures ParseDerSignature(der, false) == Ok(sig)
  {
    hide TlvAt, DerInteger, IsScalar, IsLength;
    StandsIsRead(der, 0, root);
    StandsIsRead(der, root.contentStart, r);
    StandsIsRead(der, r.end, s);
    SubarrayIsSlice(der, r.contentStart, r.end);
    SubarrayIsSlice(der, s.contentStart, s.end);
    DerIntegerAccepts(der[r.contentStart..r.end], sig.r);
    DerIntegerAccepts(der[s.contentStart..s.end], sig.s);
  }

  lemma TilesEncode(der: seq<byte>, root: Tlv, r: Tlv, s: Tlv, sig: Signature)
    requires Tiles(der, root, r, s, sig)
    ensures IsSignature(der, sig)
  {
    hide IsScalar, IsLength;
    var p := Parts(der[1..root.contentStart], der[root.contentStart + 1..r.contentStart], der[r.contentStart..r.end],
                   der[r.end + 1..s.contentStart], der[s.contentStart..s.end]);
    BodyIsCut(der, root.contentStart, r.contentStart, r.end, s.contentStart, p);
    assert der == [0x30] + p.outer + p.Body() by {
      assert der == [der[0]] + der[1..root.contentStart] + der[root.contentStart..];
    }
    hide p.Body;
    assert Encodes(p, der, sig);
  }

  /** The two INTEGERs that tile a buffer from `c` on are the body. */
  lemma BodyIsCut(der: seq<byte>, c: nat, rc: nat, re: nat, sc: nat, p: Parts)
    requires c < rc <= re < sc <= |der| && der[c] == der[re] == 0x02
    requires p.rLength == der[c + 1..rc] && p.r == der[rc..re] && p.sLength == der[re + 1..sc] && p.s == der[sc..]
    ensures p.Body() == der[c..]
  {
    assert der[c..] == [der[c]] + der[c + 1..];
    assert der[c + 1..] == der[c + 1..rc] + der[rc..];
    assert der[rc..] == der[rc..re] + der[re..];
    assert der[re..] == [der[re]] + der[re + 1..];
    assert der[re + 1..] == der[re + 1..sc] + der[sc..];
  }

  function Element(tag: byte, octets: seq<byte>, content: seq<byte>): seq<byte> {
    [tag] + octets + content
  }

  predicate HoldsAt(der: seq<byte>, offset: nat, part: seq<byte>) {
    offset + |part| <= |der| && der[offset..offset + |part|] == part
  }

  lemma SliceOf(a: seq<byte>, b: seq<byte>, c: seq<byte>)
    ensures HoldsAt(a + b + c, |a|, b)
  {
  }

  /** An element stands where the buffer holds it. */
  lemma ElementStands(der: seq<byte>, offset: nat, tag: byte, octets: seq<byte>, content: seq<byte>)
    requires HoldsAt(der, offset, Element(tag, octets, content)) && octets != [] && IsLength(octets, |content|)
    ensures var start := offset + 1 + |octets|;
            && start + |content| <= |der|
            && Stands(der, offset, Tlv(tag, start, start + |content|)) && der[start..start + |content|] == content
  {
    hide IsLength;
    var start, part := offset + 1 + |octets|, Element(tag, octets, content);
    forall i | 0 <= i < |part| ensures der[offset + i] == part[i] {
      assert der[offset..offset + |part|][i] == part[i];
    }
    assert der[offset] == tag;
    assert der[offset + 1..start] == octets by {
      forall i | 0 <= i < |octets| ensures der[offset + 1..start][i] == octets[i] {
        assert part[1 + i] == octets[i];
      }
    }
    assert der[start..start + |content|] == content by {
      forall i | 0 <= i < |content| ensures der[start..start + |content|][i] == content[i] {
        assert part[1 + |octets| + i] == content[i];
      }
    }
  }

  /** The places of the three elements of an encoding: the SEQUENCE at 0, the two INTEGERs behind one another. */
  lemma PartsHeld(p: Parts, der: seq<byte>)
    requires der == [0x30] + p.outer + p.Body()
    ensures var c := 1 + |p.outer|;
            var re := c + 1 + |p.rLength| + |p.r|;
            && |der| == c + |p.Body()| == re + 1 + |p.sLength| + |p.s|
            && HoldsAt(der, 0, Element(0x30, p.outer, p.Body()))
            && HoldsAt(der, c, Element(0x02, p.rLength, p.r)) && HoldsAt(der, re, Element(0x02, p.sLength, p.s))
  {
    var head, first, second := [0x30] + p.outer, Element(0x02, p.rLength, p.r), Element(0x02, p.sLength, p.s);
    assert p.Body() == first + second;
    assert der == head + first + second && der == (head + first) + second + []
           && der == [] + Element(0x30, p.outer, p.Body()) + [];
    SliceOf([], Element(0x30, p.outer, p.Body()), []);
    SliceOf(head, first, second);
    SliceOf(head + first, second, []);
    hide HoldsAt;
  }

  lemma LengthsAreThere(p: Parts, der: seq<byte>, sig: Signature)
    requires Encodes(p, der, sig)
    ensures p.outer != [] && p.rLength != [] && p.sLength != []
  {
    hide IsScalar, p.Body;
  }

  /** Where the elements of an encoding stand. */
  lemma EncodingTiles(p: Parts, der: seq<byte>, sig: Signature) returns (root: Tlv, r: Tlv, s: Tlv)
    requires Encodes(p, der, sig)
    ensures Tiles(der, root, r, s, sig)
  {
    LengthsAreThere(p, der, sig);
    PartsHeld(p, der);
    var c := 1 + |p.outer|;
    var re := c + 1 + |p.rLength| + |p.r|;
    root, r, s := Tlv(0x30, c, |der|), Tlv(0x02, c + 1 + |p.rLength|, re), Tlv(0x02, re + 1 + |p.sLength|, |der|);
    PartsTile(p, der, sig, root, r, s);
  }

  lemma PartsTile(p: Parts, der: seq<byte>, sig: Signature, root: Tlv, r: Tlv, s: Tlv)
    requires IsLength(p.outer, |p.Body()|) && IsLength(p.rLength, |p.r|) && IsLength(p.sLength, |p.s|)
    requires IsScalar(p.r, sig.r) && IsScalar(p.s, sig.s) && p.outer != [] && p.rLength != [] && p.sLength != []
    requires var c := 1 + |p.outer|;
             var re := c + 1 + |p.rLength| + |p.r|;
             && |der| == c + |p.Body()| == re + 1 + |p.sLength| + |p.s|
             && HoldsAt(der, 0, Element(0x30, p.outer, p.Body()))
             && HoldsAt(der, c, Element(0x02, p.rLength, p.r)) && HoldsAt(der, re, Element(0x02, p.sLength, p.s))
             && root == Tlv(0x30, c, |der|) && r == Tlv(0x02, c + 1 + |p.rLength|, re)
                && s == Tlv(0x02, re + 1 + |p.sLength|, |der|)
    ensures Tiles(der, root, r, s, sig)
  {
    hide IsScalar, IsLength, Stands, HoldsAt, Element, p.Body;
    ElementStands(der, 0, 0x30, p.outer, p.Body());
    ElementStands(der, root.contentStart, 0x02, p.rLength, p.r);
    ElementStands(der, r.end, 0x02, p.sLength, p.s);
  }

  /** The parser and the grammar agree on every buffer. */
  lemma ParserMatchesGrammar(der: seq<byte>, sig: Signature)
    ensures ParseDerSignature(der, false) == Ok(sig) <==> IsSignature(der, sig)
  {
    hide ParseDerSignature, Tiles;
    if ParseDerSignature(der, false) == Ok(sig) {
      var root, r, s := AcceptedTiles(der, sig);
      TilesEncode(der, root, r, s, sig);
    }
    if IsSignature(der, sig) {
      var p :| Encodes(p, der, sig);
      var root, r, s := EncodingTiles(p, der, sig);
      TilesIsAccepted(der, root, r, s, sig);
    }
  }

  /** The parser as it runs, with signed 32-bit lengths, accepts exactly the grammar below 2^31 octets. */
  lemma Int32ParserMatchesGrammar(der: seq<byte>, sig: Signature)
    requires |der| < 0x8000_0000
    ensures ParseDerSignature(der, true) == Ok(sig) <==> IsSignature(der, sig)
  {
    hide ParseDerSignature, IsSignature;
    Int32RefinesExact(der);
    ParserMatchesGrammar(der, sig);
  }

  // -- The canonical encoding --------------------------------------------------------------------

  /** The minimal two's complement content of a non-negative INTEGER. */
  function EncodeInteger(v: nat): seq<byte> {
    var ds: seq<byte> := Digits(v, 256);
    if ds == [] || ds[0] >= 0x80 then [0] + ds else ds
  }

  lemma IntegerEncodesScalar(v: nat)
    requires 1 <= v < SECP256K1_N
    ensures IsScalar(EncodeInteger(v), v) && |EncodeInteger(v)| <= 33
  {
    var ds: seq<byte> := Digits(v, 256);
    ValueOfDigits(v, 256);
    ScalarBelow256Octets();
    DigitCount(v, 256, 32);
    assert Zeros(1) == [0];
    ValueOfLeadingZeros(1, ds, 256);
  }

  function EncodeSignature(sig: Signature): seq<byte>
    requires 1 <= sig.r < SECP256K1_N && 1 <= sig.s < SECP256K1_N
  {
    IntegerEncodesScalar(sig.r);
    IntegerEncodesScalar(sig.s);
    var r, s := EncodeInteger(sig.r), EncodeInteger(sig.s);
    [0x30, 4 + |r| + |s|, 0x02, |r|] + r + [0x02, |s|] + s
  }

  /** Parsing the DER form (X.690, section 10.1) of a signature gives that signature back. */
  lemma ParseOfEncode(sig: Signature)
    requires 1 <= sig.r < SECP256K1_N && 1 <= sig.s < SECP256K1_N
    ensures ParseDerSignature(EncodeSignature(sig), true) == Ok(sig)
  {
    hide ParseDerSignature, EncodeInteger, IsScalar;
    IntegerEncodesScalar(sig.r);
    IntegerEncodesScalar(sig.s);
    var r, s := EncodeInteger(sig.r), EncodeInteger(sig.s);
    var der := EncodeSignature(sig);
    var p := Parts([4 + |r| + |s|], [|r|], r, [|s|], s);
    assert der == [0x30] + p.outer + p.Body();
    assert Encodes(p, der, sig);
    Int32ParserMatchesGrammar(der, sig);
  }

  /** No content of a scalar is shorter than its minimal one, and no other is as short. */
  lemma MinimalContent(octets: seq<byte>, v: nat)
    requires IsScalar(octets, v)
    ensures |octets| >= |EncodeInteger(v)|
    ensures |octets| == |EncodeInteger(v)| ==> octets == EncodeInteger(v)
  {
    var k := LeadingZeros(octets);
    var rest := octets[k..];
    assert octets == Zeros(k) + rest;
    ValueOfLeadingZeros(k, rest, 256);
    DigitsOfValue(rest, 256);
    assert Zeros(1) == [0];
    assert k == 0 ==> octets == rest;
  }

  /**
   * The parser is not strict: it accepts longer encodings of the same signature. What it accepts is
   * never shorter than the DER form (X.690, section 10.1), and is that form exactly when as short.
   */
  lemma StrictExactlyWhenShortest(der: seq<byte>, sig: Signature)
    requires |der| < 0x8000_0000 && ParseDerSignature(der, true) == Ok(sig)
    ensures 1 <= sig.r < SECP256K1_N && 1 <= sig.s < SECP256K1_N
    ensures |der| >= |EncodeSignature(sig)|
    ensures der == EncodeSignature(sig) <==> |der| == |EncodeSignature(sig)|
  {
    hide ParseDerSignature, IsLength, EncodeInteger, IsScalar;
    Int32ParserMatchesGrammar(der, sig);
    var p :| Encodes(p, der, sig);
    assert 1 <= sig.r < SECP256K1_N && 1 <= sig.s < SECP256K1_N by { ScalarsInRange(p, der, sig); }
    ShortestParts(p, der, sig);
  }

  lemma ScalarsInRange(p: Parts, der: seq<byte>, sig: Signature)
    requires Encodes(p, der, sig)
    ensures 1 <= sig.r < SECP256K1_N && 1 <= sig.s < SECP256K1_N
  {
  }

  lemma ShortestParts(p: Parts, der: seq<byte>, sig: Signature)
    requires Encodes(p, der, sig) && 1 <= sig.r < SECP256K1_N && 1 <= sig.s < SECP256K1_N
    ensures |der| >= |EncodeSignature(sig)|
    ensures |der| == |EncodeSignature(sig)| ==> der == EncodeSignature(sig)
  {
    LengthsAreThere(p, der, sig);
    MinimalContent(p.r, sig.r);
    MinimalContent(p.s, sig.s);
    PartsHeld(p, der);
    EncodedLength(sig);
    hide IsScalar, EncodeInteger, HoldsAt, Element, EncodeSignature, p.Body;
    if |der| == |EncodeSignature(sig)| {
      assert |p.outer| == |p.rLength| == |p.sLength| == 1 && p.r == EncodeInteger(sig.r) && p.s == EncodeInteger(sig.s);
      ShortestIsCanonical(p, der, sig);
    }
  }

  lemma EncodedLength(sig: Signature)
    requires 1 <= sig.r < SECP256K1_N && 1 <= sig.s < SECP256K1_N
    ensures |EncodeSignature(sig)| == 6 + |EncodeInteger(sig.r)| + |EncodeInteger(sig.s)|
  {
    hide EncodeInteger;
  }

  lemma ShortestIsCanonical(p: Parts, der: seq<byte>, sig: Signature)
    requires Encodes(p, der, sig) && 1 <= sig.r < SECP256K1_N && 1 <= sig.s < SECP256K1_N
    requires |p.outer| == |p.rLength| == |p.sLength| == 1 && p.r == EncodeInteger(sig.r) && p.s == EncodeInteger(sig.s)
    ensures der == EncodeSignature(sig)
  {
    hide IsScalar, EncodeInteger;
    assert p.outer == [|p.Body()|] && p.rLength == [|p.r|] && p.sLength == [|p.s|];
    var body := [0x02] + [|p.r|] + p.r + [0x02] + [|p.s|] + p.s;
    assert p.Body() == body && |body| == 4 + |p.r| + |p.s|;
    assert [0x30] + [|body|] + body == [0x30, 4 + |p.r| + |p.s|, 0x02, |p.r|] + p.r + [0x02, |p.s|] + p.s;
  }

  /** One such buffer: r = s = 1, under a length of two octets where one is enough. */
  lemma LongLengthIsAccepted()
    ensures var der: seq<byte> := [0x30, 0x81, 6, 2, 1, 1, 2, 1, 1];
            ParseDerSignature(der, true) == Ok(Signature(1, 1)) && der != EncodeSignature(Signature(1, 1))
  {
    var der: seq<byte>, sig := [0x30, 0x81, 6, 2, 1, 1, 2, 1, 1], Signature(1, 1);
    var p := Parts([0x81, 6], [1], [1], [1], [1]);
    LongLengthEncodes(p, der, sig);
    hide ParseDerSignature, Encodes, EncodeSignature, EncodeInteger;
    Int32ParserMatchesGrammar(der, sig);
    EncodedLength(sig);
    OneIsOneOctet();
  }

  lemma LongLengthEncodes(p: Parts, der: seq<byte>, sig: Signature)
    requires p == Parts([0x81, 6], [1], [1], [1], [1]) && der == [0x30, 0x81, 6, 2, 1, 1, 2, 1, 1]
             && sig == Signature(1, 1)
    ensures Encodes(p, der, sig)
  {
    assert Value([6], 256) == 6 && Value([1], 256) == 1;
    assert p.outer[1..] == [6];
    assert p.Body() == [2, 1, 1, 2, 1, 1];
    hide Value;
    assert der == [0x30] + p.outer + p.Body();
  }

  lemma OneIsOneOctet()
    ensures EncodeInteger(1) == [1]
  {
    assert Digits(1, 256) == Digits(0, 256) + [1];
  }

  // -- After the parser: low s and 32-byte hex ----------------------------------------------------

  /** The low-s form that EIP-2 asks for. */
  function NormalizeS(s: nat): nat
    requires s < SECP256K1_N
  {
    if s > SECP256K1_HALF_N then SECP256K1_N - s else s
  }

  /** Exactly one of the two equivalent scalars is low, and both normalise to it. */
  lemma LowS(s: nat, t: nat)
    requires 1 <= s < SECP256K1_N && 1 <= t < SECP256K1_N
    ensures 1 <= NormalizeS(s) <= (SECP256K1_N - 1) / 2
    ensures NormalizeS(s) == NormalizeS(t) <==> t == s || t == SECP256K1_N - s
  {
  }

  function ToHex32(v: nat): string {
    "0x" + Spell(PadLeft(Digits(v, 16), 64))
  }

  function FromHex(s: string): nat
    requires |s| >= 2
  {
    Value(Unspell(s[2..]), 16)
  }

  lemma HexDigitsOfScalar()
    ensures Pow(16, 64) > SECP256K1_N
  {
    assert Pow(16, 8) == 0x1_00000000;
    assert Pow(16, 16) == 0x1_00000000_00000000;
    assert Pow(16, 24) == 0x1_00000000_00000000_00000000;
    assert Pow(16, 32) == 0x1_00000000_00000000_00000000_00000000;
    assert Pow(16, 40) == 0x1_00000000_00000000_00000000_00000000_00000000;
    assert Pow(16, 48) == 0x1_00000000_00000000_00000000_00000000_00000000_00000000;
    assert Pow(16, 56) == 0x1_00000000_00000000_00000000_00000000_00000000_00000000_00000000;
  }

  /** A scalar is printed on 64 digits and read back unchanged. */
  lemma Hex32RoundTrip(v: nat)
    requires v < SECP256K1_N
    ensures |ToHex32(v)| == 66 && AreNumerals(ToHex32(v)[2..], 16)
    ensures FromHex(ToHex32(v)) == v
  {
    HexDigitsOfScalar();
    var ds := PadLeft(Digits(v, 16), 64);
    ValueOfPadLeft(v, 16, 64);
    UnspellOfSpell(ds, 16);
    assert ToHex32(v)[2..] == Spell(ds);
  }

  /**
   * From the octets a key service returns to the two words put on the transaction: r and the low one
   * of s and N - s, each readable back from its text.
   */
  lemma SignatureWords(der: seq<byte>, sig: Signature)
    requires |der| < 0x8000_0000 && ParseDerSignature(der, true) == Ok(sig)
    ensures 1 <= sig.r < SECP256K1_N && 1 <= sig.s < SECP256K1_N
    ensures FromHex(ToHex32(sig.r)) == sig.r
    ensures var low := FromHex(ToHex32(NormalizeS(sig.s)));
            1 <= low <= SECP256K1_HALF_N && (low == sig.s || low == SECP256K1_N - sig.s)
  {
    hide ParseDerSignature, ToHex32, FromHex;
    Int32ParserMatchesGrammar(der, sig);
    var p :| Encodes(p, der, sig);
    Hex32RoundTrip(sig.r);
    Hex32RoundTrip(NormalizeS(sig.s));
  }
}
