/**
 * From the octets of a key service to the words on a transaction: `signTransaction` of
 * `agent/src/signers/aws-kms-signer.ts`.
 */
module Signer {
  import opened Prelude
  import opened Der
  import opened DerGrammar
  import opened Payments

  datatype SignerError =
    | KeyUsageInvalid | KeySpecInvalid | KeyAlgorithmInvalid | PublicKeyInvalid | AddressMismatch
    | TypeInvalid | ValueInvalid | NonceInvalid | AccessListInvalid
    | BadSignature(why: DerError) | RecoveryThrew | RecoveryFailed | RecoveryAmbiguous

  datatype Words = Words(r: string, s: string, yParity: nat)

  /** The address a signature of the digest recovers to, for one of the two parities, or a throw. */
  type Recover = Words -> Option<string>

  /** What the key service tells of the key; `address` is the one its public key has, if that parses. */
  datatype KeyAnswer = KeyAnswer(usage: Option<string>, spec: Option<string>, algorithms: Option<seq<string>>,
                                 address: Option<string>)

  /** `load`: the address of the key, which has to be the configured one. */
  function LoadKey(answer: KeyAnswer, expected: string): Result<string, SignerError> {
    if answer.usage.Some? && answer.usage.value != "SIGN_VERIFY" then Err(KeyUsageInvalid)
    else if answer.spec.Some? && answer.spec.value != "ECC_SECG_P256K1" then Err(KeySpecInvalid)
    else if answer.algorithms.Some? && "ECDSA_SHA_256" !in answer.algorithms.value then Err(KeyAlgorithmInvalid)
    else if answer.address.None? then Err(PublicKeyInvalid)
    else if !SameText(answer.address.value, expected) then Err(AddressMismatch)
    else Ok(answer.address.value)
  }

  /**
   * A key loads exactly when whatever the service tells of it fits, its public key parses and its address
   * is the configured one; otherwise the first misfit is the error.
   */
  lemma KeyLoadsExactly(answer: KeyAnswer, expected: string)
    ensures var used := answer.usage == None || answer.usage == Some("SIGN_VERIFY");
            var curved := used && (answer.spec == None || answer.spec == Some("ECC_SECG_P256K1"));
            var signing := curved && (answer.algorithms == None || exists i ::
                0 <= i < |answer.algorithms.value| && answer.algorithms.value[i] == "ECDSA_SHA_256");
            var known := signing && answer.address.Some?;
            var own := known && Lower(answer.address.value) == Lower(expected);
            && (LoadKey(answer, expected) == Err(KeyUsageInvalid) <==> !used)
            && (LoadKey(answer, expected) == Err(KeySpecInvalid) <==> used && !curved)
            && (LoadKey(answer, expected) == Err(KeyAlgorithmInvalid) <==> curved && !signing)
            && (LoadKey(answer, expected) == Err(PublicKeyInvalid) <==> signing && !known)
            && (LoadKey(answer, expected) == Err(AddressMismatch) <==> known && !own)
            && (own ==> LoadKey(answer, expected) == Ok(answer.address.value))
  {
    hide Lower;
    if answer.algorithms.Some? {
      assert "ECDSA_SHA_256" in answer.algorithms.value <==>
        exists i :: 0 <= i < |answer.algorithms.value| && answer.algorithms.value[i] == "ECDSA_SHA_256";
    }
  }

  function UnsignedFault(tx: UnsignedTx): (fault: Option<SignerError>)
    ensures fault.None? <==> tx.kind == "eip1559" && tx.value == 0 && tx.nonce >= 0 && tx.accessListLength == 0
    ensures fault.Some? ==>
      && (fault.value == TypeInvalid <==> tx.kind != "eip1559")
      && (fault.value == ValueInvalid <==> tx.kind == "eip1559" && tx.value != 0)
      && (fault.value == NonceInvalid <==> tx.kind == "eip1559" && tx.value == 0 && tx.nonce < 0)
      && (fault.value == AccessListInvalid <==>
            tx.kind == "eip1559" && tx.value == 0 && tx.nonce >= 0 && tx.accessListLength != 0)
  {
    if tx.kind != "eip1559" then Some(TypeInvalid)
    else if tx.value != 0 then Some(ValueInvalid)
    else if tx.nonce < 0 then Some(NonceInvalid)
    else if tx.accessListLength != 0 then Some(AccessListInvalid)
    else None
  }

  predicate RecoversTo(recover: Recover, words: Words, address: string) {
    recover(words).Some? && SameText(recover(words).value, address)
  }

  predicate Throws(recover: Recover, r: string, s: string) {
    recover(Words(r, s, 0)).None? || recover(Words(r, s, 1)).None?
  }

  /** The words chosen for a signature are the one of the two candidates that recovers to the key's address. */
  predicate IsChosen(recover: Recover, address: string, r: string, s: string, result: Result<Words, SignerError>) {
    var even, odd := RecoversTo(recover, Words(r, s, 0), address), RecoversTo(recover, Words(r, s, 1), address);
    if Throws(recover, r, s) then result == Err(RecoveryThrew)
    else match result
      case Ok(words) => words.r == r && words.s == s && words.yParity <= 1 && (words.yParity == 0 <==> even)
        && (words.yParity == 1 <==> odd)
      case Err(RecoveryAmbiguous) => even && odd
      case Err(RecoveryFailed) => !even && !odd
      case Err(_) => false
  }

  /** A key that loads, a transaction without fault, octets that parse, and then the chosen words. */
  predicate IsSignedBy(tx: UnsignedTx, key: Result<string, SignerError>, der: seq<byte>, recover: Recover,
                       result: Result<Words, SignerError>) {
    match key
    case Err(why) => result == Err(why)
    case Ok(address) => match UnsignedFault(tx)
      case Some(fault) => result == Err(fault)
      case None => match ParseDerSignature(der, true)
        case Err(why) => result == Err(BadSignature(why))
        case Ok(sig) =>
          sig.s < SECP256K1_N && IsChosen(recover, address, ToHex32(sig.r), ToHex32(NormalizeS(sig.s)), result)
  }

  method SelectParity(recover: Recover, address: string, r: string, s: string)
    returns (result: Result<Words, SignerError>)
    ensures IsChosen(recover, address, r, s, result)
  {
    var matched: Option<nat> := None;
    for yParity := 0 to 2
      invariant matched.Some? ==> matched.value < yParity
      invariant forall p :: 0 <= p < yParity ==> recover(Words(r, s, p)).Some?
      invariant forall p :: 0 <= p < yParity ==> (matched == Some(p) <==> RecoversTo(recover, Words(r, s, p), address))
    {
      if recover(Words(r, s, yParity)).None? {
        return Err(RecoveryThrew);
      }
      if RecoversTo(recover, Words(r, s, yParity), address) {
        if matched.Some? {
          return Err(RecoveryAmbiguous);
        }
        matched := Some(yParity);
      }
    }
    return if matched.None? then Err(RecoveryFailed) else Ok(Words(r, s, matched.value));
  }

  lemma ScalarBelowN(der: seq<byte>)
    ensures ParseDerSignature(der, true).Ok? ==> ParseDerSignature(der, true).value.s < SECP256K1_N
  {
    hide TlvAt;
  }

  /** The signer, which loads its key once; a load that throws leaves it to be tried again. */
  class AwsKmsSigner {
    const expectedAddress: string
    var cache: Option<string>

    constructor (expectedAddress: string)
      ensures this.expectedAddress == expectedAddress && cache == None
    {
      this.expectedAddress := expectedAddress;
      cache := None;
    }

    /** The key in use: the one loaded, or else what the service answers now. */
    function Key(answer: KeyAnswer): Result<string, SignerError>
      reads this
    {
      if cache.Some? then Ok(cache.value) else LoadKey(answer, expectedAddress)
    }

    /** Whatever was loaded is the configured address. */
    predicate Valid()
      reads this
    {
      cache.Some? ==> SameText(cache.value, expectedAddress)
    }

    method Load(answer: KeyAnswer) returns (key: Result<string, SignerError>)
      requires Valid()
      modifies this
      ensures Valid() && key == old(Key(answer))
      ensures cache == if key.Ok? then Some(key.value) else old(cache)
    {
      if cache.Some? {
        return Ok(cache.value);
      }
      if answer.usage.Some? && answer.usage.value != "SIGN_VERIFY" {
        return Err(KeyUsageInvalid);
      }
      if answer.spec.Some? && answer.spec.value != "ECC_SECG_P256K1" {
        return Err(KeySpecInvalid);
      }
      if answer.algorithms.Some? && "ECDSA_SHA_256" !in answer.algorithms.value {
        return Err(KeyAlgorithmInvalid);
      }
      if answer.address.None? {
        return Err(PublicKeyInvalid);
      }
      if !SameText(answer.address.value, expectedAddress) {
        return Err(AddressMismatch);
      }
      cache := answer.address;
      return Ok(cache.value);
    }

    /** `answer` and `der` are what the key service answers for the key and for the digest of `tx`. */
    method SignTransaction(tx: UnsignedTx, answer: KeyAnswer, der: seq<byte>, recover: Recover)
      returns (result: Result<Words, SignerError>)
      requires Valid()
      modifies this
      ensures Valid() && IsSignedBy(tx, old(Key(answer)), der, recover, result)
    {
      ScalarBelowN(der);
      hide ParseDerSignature, ToHex32, NormalizeS, IsChosen;
      var key := Load(answer);
      if key.Err? {
        return Err(key.error);
      }
      if UnsignedFault(tx).Some? {
        return Err(UnsignedFault(tx).value);
      }
      var parsed := ParseDerSignature(der, true);
      if parsed.Err? {
        return Err(BadSignature(parsed.error));
      }
      var sig := parsed.value;
      result := SelectParity(recover, key.value, ToHex32(sig.r), ToHex32(NormalizeS(sig.s)));
    }
  }

  /**
   * It does not matter which of the two equivalent signatures (r, s) and (r, N - s) the key service
   * answers with, nor in which octets: the signed words are the same.
   */
  lemma EquivalentSignaturesSignAlike(tx: UnsignedTx, key: Result<string, SignerError>, a: seq<byte>, b: seq<byte>,
                                      recover: Recover, x: Result<Words, SignerError>, y: Result<Words, SignerError>)
    requires |a| < 0x8000_0000 && |b| < 0x8000_0000
    requires ParseDerSignature(a, true).Ok? && ParseDerSignature(b, true).Ok?
    requires var p, q := ParseDerSignature(a, true).value, ParseDerSignature(b, true).value;
             p.r == q.r && (q.s == p.s || q.s == SECP256K1_N - p.s)
    requires IsSignedBy(tx, key, a, recover, x) && IsSignedBy(tx, key, b, recover, y)
    ensures x == y
  {
    hide ParseDerSignature, ToHex32, FromHex, NormalizeS, IsChosen, UnsignedFault;
    var p, q := ParseDerSignature(a, true).value, ParseDerSignature(b, true).value;
    SignatureWords(a, p);
    SignatureWords(b, q);
    LowS(p.s, q.s);
    if key.Ok? && UnsignedFault(tx).None? {
      ChosenIsUnique(recover, key.value, ToHex32(p.r), ToHex32(NormalizeS(p.s)), x, y);
    }
  }

  lemma ChosenIsUnique(recover: Recover, address: string, r: string, s: string, x: Result<Words, SignerError>,
                       y: Result<Words, SignerError>)
    requires IsChosen(recover, address, r, s, x) && IsChosen(recover, address, r, s, y)
    ensures x == y
  {
    hide RecoversTo;
  }

  /**
   * What is signed recovers to the configured address under its parity only, in the low-s form EIP-2
   * requires; and whenever the key loads, the octets parse and one parity recovers to the key's address,
   * the transaction is signed.
   */
  lemma SignedExactlyWhenRecovered(signer: AwsKmsSigner, tx: UnsignedTx, answer: KeyAnswer, der: seq<byte>,
                                   recover: Recover, result: Result<Words, SignerError>)
    requires |der| < 0x8000_0000 && signer.Valid() && IsSignedBy(tx, signer.Key(answer), der, recover, result)
    ensures result.Ok? <==>
      && signer.Key(answer).Ok? && UnsignedFault(tx).None? && ParseDerSignature(der, true).Ok?
      && var sig, address := ParseDerSignature(der, true).value, signer.Key(answer).value;
         var r, s := ToHex32(sig.r), ToHex32(if sig.s <= SECP256K1_HALF_N then sig.s else SECP256K1_N - sig.s);
         !Throws(recover, r, s) && RecoversTo(recover, Words(r, s, 0), address) != RecoversTo(recover, Words(r, s, 1),
             address)
    ensures result.Ok? ==>
      && RecoversTo(recover, result.value, signer.expectedAddress)
      && !RecoversTo(recover, result.value.(yParity := 1 - result.value.yParity), signer.expectedAddress)
      && |result.value.r| == 66 && |result.value.s| == 66
      && 1 <= FromHex(result.value.r) < SECP256K1_N && 1 <= FromHex(result.value.s) <= SECP256K1_HALF_N
  {
    hide ParseDerSignature, RecoversTo;
    if signer.Key(answer).Ok? && UnsignedFault(tx).None? && ParseDerSignature(der, true).Ok? {
      var sig, address := ParseDerSignature(der, true).value, signer.Key(answer).value;
      assert SameText(address, signer.expectedAddress);
      SignatureWords(der, sig);
      Hex32RoundTrip(sig.r);
      Hex32RoundTrip(NormalizeS(sig.s));
      if result.Ok? {
        SameAddress(recover, result.value, address, signer.expectedAddress);
        SameAddress(recover, result.value.(yParity := 1 - result.value.yParity), address, signer.expectedAddress);
      }
      hide ToHex32, FromHex, LoadKey;
    }
  }

  lemma SameAddress(recover: Recover, words: Words, a: string, b: string)
    requires SameText(a, b)
    ensures RecoversTo(recover, words, a) <==> RecoversTo(recover, words, b)
  {
  }
}
