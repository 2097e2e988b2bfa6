/**
 * The DER reader of the KMS signer: `agent/src/signers/aws-kms-signer.ts`. The length of an element
 * is accumulated in signed 32-bit arithmetic there; `wrap` chooses between that and exact integers.
 */
module Der {
  import opened Prelude
  import opened Radix

  type byte = b: nat | b < 256 witness 0

  const SECP256K1_N: nat := 0xffffffff_ffffffff_ffffffff_fffffffe_baaedce6_af48a03b_bfd25e8c_d0364141
  const SECP256K1_HALF_N: nat := SECP256K1_N / 2

  const TAG_INTEGER: int := 0x02
  const TAG_SEQUENCE: int := 0x30

  datatype DerError = DerInvalid | SignatureInvalid

  datatype Tlv = Tlv(tag: int, contentStart: int, end: int)

  datatype Signature = Signature(r: nat, s: nat)

  /** Reading a typed array outside its bounds gives `undefined`, written -1 here. */
  function At(buffer: seq<byte>, i: int): int {
    if 0 <= i < |buffer| then buffer[i] else -1
  }

  function ToInt32(x: int): int {
    var m := x % 0x1_0000_0000;
    if m >= 0x8000_0000 then m - 0x1_0000_0000 else m
  }

  /** `length = (length << 8) | octet`: the low eight bits are clear, so the or adds. */
  function ShiftIn(length: int, octet: byte): int {
    ToInt32(length * 256) + octet
  }

  function Int32Fold(octets: seq<byte>): int {
    if octets == [] then 0 else ShiftIn(Int32Fold(octets[..|octets| - 1]), octets[|octets| - 1])
  }

  function ReadLength(octets: seq<byte>, wrap: bool): int {
    if wrap then Int32Fold(octets) else Value(octets, 256)
  }

  /** What `readTlv` returns. */
  function TlvAt(buffer: seq<byte>, offset: int, wrap: bool): Result<Tlv, DerError> {
    if offset + 2 > |buffer| then Err(DerInvalid)
    else
      var tag, first := At(buffer, offset), At(buffer, offset + 1);
      if 0 <= first < 0x80 then Close(buffer, Tlv(tag, offset + 2, offset + 2 + first))
      else
        var lengthBytes := if first < 0 then 0 else first - 0x80;
        if lengthBytes == 0 || lengthBytes > 4 then Err(DerInvalid)
        else if offset + 2 + lengthBytes > |buffer| then Err(DerInvalid)
        else
          var contentStart := offset + 2 + lengthBytes;
          Close(buffer, Tlv(tag, contentStart, contentStart + ReadLength(buffer[offset + 2..contentStart], wrap)))
  }

  function Close(buffer: seq<byte>, tlv: Tlv): Result<Tlv, DerError> {
    if tlv.end > |buffer| then Err(DerInvalid) else Ok(tlv)
  }

  method ReadTlv(buffer: seq<byte>, offset: int) returns (tlv: Result<Tlv, DerError>)
    ensures tlv == TlvAt(buffer, offset, true)
  {
    if offset + 2 > |buffer| {
      return Err(DerInvalid);
    }
    var tag, first := At(buffer, offset), At(buffer, offset + 1);
    var contentStart: int, length: int;
    if 0 <= first < 0x80 {
      length := first;
      contentStart := offset + 2;
    } else {
      var lengthBytes := if first < 0 then 0 else first - 0x80;
      if lengthBytes == 0 || lengthBytes > 4 {
        return Err(DerInvalid);
      }
      if offset + 2 + lengthBytes > |buffer| {
        return Err(DerInvalid);
      }
      length := 0;
      for index := 0 to lengthBytes
        invariant length == Int32Fold(buffer[offset + 2..offset + 2 + index])
      {
        var octets := buffer[offset + 2..offset + 2 + index + 1];
        assert octets[..|octets| - 1] == buffer[offset + 2..offset + 2 + index];
        length := ShiftIn(length, buffer[offset + 2 + index]);
      }
      contentStart := offset + 2 + lengthBytes;
    }
    var end := contentStart + length;
    if end > |buffer| {
      return Err(DerInvalid);
    }
    return Ok(Tlv(tag, contentStart, end));
  }

  /** How many leading zero octets `derIntegerToBigInt` drops: never the last octet. */
  function Skipped(octets: seq<byte>): (k: nat)
    requires octets != []
    ensures k < |octets|
  {
    if LeadingZeros(octets) == |octets| then |octets| - 1 else LeadingZeros(octets)
  }

  function DerInteger(octets: seq<byte>): Result<nat, DerError> {
    if octets == [] || octets[0] >= 0x80 then Err(SignatureInvalid)
    else
      var trimmed := octets[Skipped(octets)..];
      if |trimmed| > 32 then Err(SignatureInvalid)
      else if Value(trimmed, 256) == 0 || Value(trimmed, 256) >= SECP256K1_N then Err(SignatureInvalid)
      else Ok(Value(trimmed, 256))
  }

  lemma {:induction false} LeadingZerosAt(ds: seq<nat>, k: nat)
    requires k <= |ds| && (forall i :: 0 <= i < k ==> ds[i] == 0)
    requires k < |ds| ==> ds[k] != 0
    ensures LeadingZeros(ds) == k
  {
    if k > 0 {
      LeadingZerosAt(ds[1..], k - 1);
    }
  }

  method DerIntegerToBigInt(octets: seq<byte>) returns (value: Result<nat, DerError>)
    ensures value == DerInteger(octets)
  {
    if |octets| == 0 {
      return Err(SignatureInvalid);
    }
    if octets[0] >= 0x80 {
      return Err(SignatureInvalid);
    }
    var start := 0;
    while start < |octets| - 1 && octets[start] == 0
      invariant 0 <= start < |octets|
      invariant forall i :: 0 <= i < start ==> octets[i] == 0
    {
      start := start + 1;
    }
    if octets[start] == 0 {
      LeadingZerosAt(octets, |octets|);
    } else {
      LeadingZerosAt(octets, start);
    }
    var trimmed := octets[start..];
    if |trimmed| > 32 {
      return Err(SignatureInvalid);
    }
    var v := Value(trimmed, 256);
    if v == 0 || v >= SECP256K1_N {
      return Err(SignatureInvalid);
    }
    return Ok(v);
  }

  /** `subarray`: a negative bound counts from the end, and a reversed range is empty. */
  function Subarray(buffer: seq<byte>, start: int, end: int): seq<byte> {
    var from, to := Bound(start, |buffer|), Bound(end, |buffer|);
    if from < to then buffer[from..to] else []
  }

  function Bound(i: int, length: nat): (b: nat)
    ensures b <= length
    ensures 0 <= i <= length ==> b == i
  {
    if i < 0 then (if length + i < 0 then 0 else length + i) else Min(i, length)
  }

  function ParseDerSignature(der: seq<byte>, wrap: bool): Result<Signature, DerError> {
    match TlvAt(der, 0, wrap)
    case Err(e) => Err(e)
    case Ok(root) =>
      if root.tag != TAG_SEQUENCE || root.end != |der| then Err(SignatureInvalid)
      else match TlvAt(der, root.contentStart, wrap)
        case Err(e) => Err(e)
        case Ok(rField) =>
          if rField.tag != TAG_INTEGER then Err(SignatureInvalid)
          else match TlvAt(der, rField.end, wrap)
            case Err(e) => Err(e)
            case Ok(sField) =>
              if sField.tag != TAG_INTEGER || sField.end != root.end then Err(SignatureInvalid)
              else match DerInteger(Subarray(der, rField.contentStart, rField.end))
                case Err(e) => Err(e)
                case Ok(r) => match DerInteger(Subarray(der, sField.contentStart, sField.end))
                  case Err(e) => Err(e)
                  case Ok(s) => Ok(Signature(r, s))
  }

  // -- Signed 32-bit lengths against exact lengths -----------------------------------------------

  lemma ShiftInWraps(v: nat, octet: byte)
    ensures ShiftIn(ToInt32(v), octet) == ToInt32(v * 256 + octet)
  {
    var q, m := v / 0x100_0000, v % 0x100_0000;
    var turns := (v - ToInt32(v)) / 0x1_0000_0000;
    assert v == q * 0x100_0000 + m && ToInt32(v) == v - turns * 0x1_0000_0000;
    Residue(ToInt32(v) * 256, q - turns * 256, m * 256);
    Residue(v * 256 + octet, q, m * 256 + octet);
  }

  lemma Residue(x: int, turns: int, rest: int)
    requires x == turns * 0x1_0000_0000 + rest && 0 <= rest < 0x1_0000_0000
    ensures x % 0x1_0000_0000 == rest
  {
  }

  lemma {:induction false} Int32FoldWraps(octets: seq<byte>)
    ensures Int32Fold(octets) == ToInt32(Value(octets, 256))
  {
    if octets != [] {
      Int32FoldWraps(octets[..|octets| - 1]);
      ShiftInWraps(Value(octets[..|octets| - 1], 256), octets[|octets| - 1]);
    }
  }

  lemma PowersOf256()
    ensures Pow(256, 4) == 0x1_0000_0000
  {
    assert Pow(256, 2) == 0x1_0000;
  }

  lemma FourOctets(octets: seq<byte>)
    requires |octets| <= 4
    ensures 0 <= Value(octets, 256) < 0x1_0000_0000
  {
    var padded := Zeros(4 - |octets|) + octets;
    ValueOfLeadingZeros(4 - |octets|, octets, 256);
    ValueBound(padded, 256);
    PowersOf256();
  }

  /** A wrapped length is the exact one, or the exact one is at least 2^31 and it reads negative. */
  lemma LengthWraps(octets: seq<byte>)
    requires |octets| <= 4
    ensures ReadLength(octets, false) < 0x8000_0000 ==> ReadLength(octets, true) == ReadLength(octets, false)
    ensures ReadLength(octets, false) >= 0x8000_0000 ==> ReadLength(octets, true) < 0
  {
    FourOctets(octets);
    Int32FoldWraps(octets);
  }

  /** In a buffer below 2^31 the two readers differ only on an element whose length wraps negative. */
  lemma TlvWraps(buffer: seq<byte>, offset: int)
    requires |buffer| < 0x8000_0000
    ensures TlvAt(buffer, offset, false).Ok? ==> TlvAt(buffer, offset, true) == TlvAt(buffer, offset, false)
    ensures TlvAt(buffer, offset, true).Ok? && TlvAt(buffer, offset, true) != TlvAt(buffer, offset, false)
            ==> TlvAt(buffer, offset, true).value.end < TlvAt(buffer, offset, true).value.contentStart
    ensures TlvAt(buffer, offset, true).Ok? ==>
              offset >= -1 && offset + 2 <= TlvAt(buffer, offset, true).value.contentStart <= |buffer|
    ensures TlvAt(buffer, offset, true).Ok? && offset == -1 ==> TlvAt(buffer, offset, true).value.tag == -1
  {
    if offset + 2 <= |buffer| && offset >= -1 {
      var first := At(buffer, offset + 1);
      if 0x80 < first <= 0x84 && offset + 2 + (first - 0x80) <= |buffer| {
        LengthWraps(buffer[offset + 2..offset + 2 + (first - 0x80)]);
      }
    }
  }

  /**
   * Signed 32-bit length arithmetic changes nothing the parser accepts: a length that wraps negative
   * makes a later field empty, misplaced or undefined.
   */
  lemma Int32RefinesExact(der: seq<byte>)
    requires |der| < 0x8000_0000
    ensures ParseDerSignature(der, true).Ok? <==> ParseDerSignature(der, false).Ok?
    ensures ParseDerSignature(der, true).Ok? ==> ParseDerSignature(der, true) == ParseDerSignature(der, false)
  {
    hide TlvAt, DerInteger;
    TlvWraps(der, 0);
    if TlvAt(der, 0, true).Ok? {
      var root := TlvAt(der, 0, true).value;
      TlvWraps(der, root.contentStart);
      if TlvAt(der, root.contentStart, true).Ok? {
        var rField := TlvAt(der, root.contentStart, true).value;
        TlvWraps(der, rField.end);
        if rField.end < rField.contentStart {
          EmptyIsRejected(der, rField);
        }
      }
    }
  }

  lemma EmptyIsRejected(der: seq<byte>, field: Tlv)
    requires 0 <= field.contentStart <= |der| && field.end < field.contentStart
    ensures field.end >= 0 ==> DerInteger(Subarray(der, field.contentStart, field.end)).Err?
  {
  }
}
