/** Exactly what is built and signed, what is refused first, and what the envelope check lets pass. */
module EnvelopeExact {
  import opened Prelude
  import opened Amount
  import opened Instruction
  import opened Payments
  import opened Envelope

  // -- The clamped amounts -----------------------------------------------------------------------

  /** The estimate with its margin, rounded down, but never above the most; without an estimate the most. */
  predicate IsGas(gas: nat, seen: ChainReads, kms: KmsConfig) {
    && gas <= kms.maxGas
    && (seen.gasEstimate.None? ==> gas == kms.maxGas)
    && (seen.gasEstimate.Some? ==>
          var scaled := seen.gasEstimate.value * kms.gasMarginThousandths;
          gas * 1000 <= scaled && (gas < kms.maxGas ==> scaled < (gas + 1) * 1000))
  }

  /** The largest fee within what the chain asks and the ceiling. */
  predicate IsFee(fee: nat, seen: ChainReads, kms: KmsConfig) {
    && fee <= seen.maxFeePerGas && fee <= kms.maxFeePerGas
    && (fee == seen.maxFeePerGas || fee == kms.maxFeePerGas)
  }

  /** The largest priority fee within what the chain asks, its own ceiling and the fee. */
  predicate IsPriority(priority: nat, fee: nat, seen: ChainReads, kms: KmsConfig) {
    && priority <= seen.maxPriorityFeePerGas && priority <= kms.maxPriorityFeePerGas && priority <= fee
    && (priority == seen.maxPriorityFeePerGas || priority == kms.maxPriorityFeePerGas || priority == fee)
  }

  lemma AmountsAreClamped(seen: ChainReads, kms: KmsConfig)
    ensures IsGas(Gas(seen, kms), seen, kms) && IsFee(MaxFee(seen, kms), seen, kms)
    ensures IsPriority(MaxPriorityFee(seen, kms), MaxFee(seen, kms), seen, kms)
  {
    if seen.gasEstimate.Some? {
      var scaled := seen.gasEstimate.value * kms.gasMarginThousandths;
      assert WithMargin(seen.gasEstimate.value, kms.gasMarginThousandths) == scaled / 1000;
    }
  }

  /** And that is the only amount so clamped. */
  lemma ClampedIsUnique(gas: nat, fee: nat, priority: nat, seen: ChainReads, kms: KmsConfig)
    requires IsGas(gas, seen, kms) && IsFee(fee, seen, kms) && IsPriority(priority, fee, seen, kms)
    ensures gas == Gas(seen, kms) && fee == MaxFee(seen, kms) && priority == MaxPriorityFee(seen, kms)
  {
    AmountsAreClamped(seen, kms);
  }

  // -- What is built -----------------------------------------------------------------------------

  /** The account's active mandate is this one, exists, is not revoked, and is the signer's. */
  predicate IsMandated(mandateId: nat, deps: Dependencies, seen: ChainReads) {
    && seen.activeMandateId == mandateId && seen.mandateExists && !seen.mandateRevoked
    && Lower(seen.mandateAgent) == Lower(deps.signer)
  }

  predicate IsCovered(gas: nat, fee: nat, deps: Dependencies, seen: ChainReads) {
    seen.balance >= deps.kms.gasLowWatermark && seen.balance >= gas * fee
  }

  /** A payment of the amount to the recipient, under the request and the mandate, from the reserved nonce. */
  predicate IsPayment(tx: UnsignedTx, mandateId: nat, requestId: string, deps: Dependencies, intent: PaymentIntent,
                      amount: nat, nonce: nat) {
    && tx.kind == "eip1559" && tx.chainId == 5_042_002 && tx.nonce == nonce && tx.to == deps.context.account
    && tx.value == 0 && tx.data == Pay(mandateId, requestId, intent.recipient, amount) && tx.accessListLength == 0
  }

  /**
   * The first thing wrong is what is reported: the mandate, its agent, the gas money, or gas or fee clamped
   * to zero. When nothing is wrong the payment is built with exactly the clamped amounts.
   */
  lemma BuildsExactly(mandateId: nat, requestId: string, deps: Dependencies, intent: PaymentIntent, amount: nat,
                      nonce: nat, seen: ChainReads, gas: nat, fee: nat, priority: nat)
    requires IsGas(gas, seen, deps.kms) && IsFee(fee, seen, deps.kms) && IsPriority(priority, fee, seen, deps.kms)
    ensures var outcome := Build(mandateId, requestId, deps, intent, amount, nonce, seen);
            var mandated, covered := IsMandated(mandateId, deps, seen), IsCovered(gas, fee, deps, seen);
            && (outcome == Blocked("MANDATE_NOT_ACTIVE") <==> seen.activeMandateId != mandateId)
            && (outcome == Blocked("MANDATE_AGENT_MISMATCH") <==> seen.activeMandateId == mandateId && !mandated)
            && (outcome == Blocked("AGENT_GAS_INSUFFICIENT") <==> mandated && !covered)
            && (outcome == Blocked("SIGNER_ENVELOPE_REJECTED") <==> mandated && covered && (gas == 0 || fee == 0))
            && (outcome.ToSign? <==> mandated && covered && gas > 0 && fee > 0)
            && (outcome.ToSign? ==>
                  && IsPayment(outcome.tx, mandateId, requestId, deps, intent, amount, nonce)
                  && outcome.tx.gas == gas && outcome.tx.maxFeePerGas == fee
                     && outcome.tx.maxPriorityFeePerGas == priority)
  {
    ClampedIsUnique(gas, fee, priority, seen, deps.kms);
    CodesDiffer();
    EnvelopeRejectsOnlyZero(mandateId, requestId, deps, intent, amount, nonce, seen);
    hide IsGas, IsFee, IsPriority, Gas, MaxFee, MaxPriorityFee, ValidateSignerEnvelope, Lower;
  }

  lemma CodesDiffer()
    ensures MANDATE_NOT_ACTIVE == "MANDATE_NOT_ACTIVE" && MANDATE_AGENT_MISMATCH == "MANDATE_AGENT_MISMATCH"
    ensures AGENT_GAS_INSUFFICIENT == "AGENT_GAS_INSUFFICIENT" && SIGNER_ENVELOPE_REJECTED == "SIGNER_ENVELOPE_REJECTED"
    ensures |MANDATE_NOT_ACTIVE| == 18 && |MANDATE_AGENT_MISMATCH| == |AGENT_GAS_INSUFFICIENT| == 22
    ensures |SIGNER_ENVELOPE_REJECTED| == 24 && MANDATE_AGENT_MISMATCH[0] != AGENT_GAS_INSUFFICIENT[0]
  {
  }

  // -- What passes the envelope check ------------------------------------------------------------

  /** What is checked, in order: seventeen conditions and the field each is reported as. */
  const FIELDS: seq<string> := ["type", "chainId", "sender", "destination", "value", "selector", "data", "mandateId",
                                "mandateId", "requestId", "recipient", "amount", "gas", "fees", "fees", "nonce",
                                "accessList"]

  predicate IsRight(tx: UnsignedTx, expected: Expectation, k: int) {
    match k
    case 0 => tx.kind == "eip1559"
    case 1 => tx.chainId == 5_042_002 == expected.chainId
    case 2 => Lower(expected.signerAddress) == Lower(expected.configuredSender)
    case 3 => Lower(tx.to) == Lower(expected.account)
    case 4 => tx.value == 0
    case 5 => !tx.data.OtherCall?
    case 6 => !tx.data.NotDecodable?
    case 7 => expected.mandateId == expected.onChainMandateId
    case 8 => tx.data.Pay? && tx.data.mandateId == expected.mandateId
    case 9 => tx.data.Pay? && Lower(tx.data.requestId) == Lower(expected.requestId)
    case 10 => tx.data.Pay? && Lower(tx.data.recipient) == Lower(expected.recipient)
    case 11 => tx.data.Pay? && tx.data.amount == expected.amount
    case 12 => 0 < tx.gas <= expected.maxGas
    case 13 => 0 < tx.maxFeePerGas <= expected.maxFeePerGasCeiling
    case 14 => 0 <= tx.maxPriorityFeePerGas <= expected.maxPriorityFeePerGasCeiling
      && tx.maxPriorityFeePerGas <= tx.maxFeePerGas
    case 15 => tx.nonce >= 0
    case 16 => tx.accessListLength == 0
    case _ => true
  }

  /** The field that is reported is the one of the first condition that fails. */
  lemma FirstWrongFieldIsReported(tx: UnsignedTx, expected: Expectation, k: int)
    requires 0 <= k <= 16 && !IsRight(tx, expected, k) && forall j :: 0 <= j < k ==> IsRight(tx, expected, j)
    ensures ValidateSignerEnvelope(tx, expected) == Some(FIELDS[k])
  {
    assert k > 0 ==> IsRight(tx, expected, 0);
    assert k > 1 ==> IsRight(tx, expected, 1);
    assert k > 2 ==> IsRight(tx, expected, 2);
    assert k > 3 ==> IsRight(tx, expected, 3);
    assert k > 4 ==> IsRight(tx, expected, 4);
    assert k > 5 ==> IsRight(tx, expected, 5);
    assert k > 6 ==> IsRight(tx, expected, 6);
    assert k > 7 ==> IsRight(tx, expected, 7);
    assert k > 8 ==> IsRight(tx, expected, 8);
    assert k > 9 ==> IsRight(tx, expected, 9);
    assert k > 10 ==> IsRight(tx, expected, 10);
    assert k > 11 ==> IsRight(tx, expected, 11);
    assert k > 12 ==> IsRight(tx, expected, 12);
    assert k > 13 ==> IsRight(tx, expected, 13);
    assert k > 14 ==> IsRight(tx, expected, 14);
    assert k > 15 ==> IsRight(tx, expected, 15);
    hide Lower;
  }

  /**
   * Of all transactions, whoever built them, exactly those pass that call `pay` on the expected account
   * with the expected request, recipient, amount and on-chain mandate, from the configured signer, within
   * the ceilings.
   */
  lemma EnvelopePassesExactly(tx: UnsignedTx, expected: Expectation)
    ensures ValidateSignerEnvelope(tx, expected).None? <==>
            && tx.kind == "eip1559" && tx.chainId == 5_042_002 && expected.chainId == 5_042_002
            && Lower(expected.signerAddress) == Lower(expected.configuredSender)
               && Lower(tx.to) == Lower(expected.account)
            && tx.value == 0 && tx.accessListLength == 0 && tx.nonce >= 0
            && tx.data.Pay? && tx.data.mandateId == expected.mandateId == expected.onChainMandateId
            && Lower(tx.data.requestId) == Lower(expected.requestId)
            && Lower(tx.data.recipient) == Lower(expected.recipient) && tx.data.amount == expected.amount
            && 0 < tx.gas <= expected.maxGas && 0 < tx.maxFeePerGas <= expected.maxFeePerGasCeiling
            && 0 <= tx.maxPriorityFeePerGas <= expected.maxPriorityFeePerGasCeiling
            && tx.maxPriorityFeePerGas <= tx.maxFeePerGas
  {
    hide Lower;
  }
}
