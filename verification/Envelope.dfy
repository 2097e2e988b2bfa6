/**
 * The transaction a worker builds and the envelope check in front of the signer:
 * `constructSignBroadcast` of `agent/src/payment/worker.ts` and `agent/src/signers/envelope.ts`.
 */
module Envelope {
  import opened Prelude
  import opened Amount
  import opened Instruction
  import opened Payments

  datatype Expectation = Expectation(
    chainId: int, configuredSender: string, signerAddress: string, account: string,
    mandateId: nat, onChainMandateId: nat, requestId: string, recipient: string, amount: nat,
    maxGas: int, maxFeePerGasCeiling: int, maxPriorityFeePerGasCeiling: int)

  /** The first field that fails, if any. */
  function ValidateSignerEnvelope(tx: UnsignedTx, expected: Expectation): Option<string> {
    if tx.kind != "eip1559" then Some("type")
    else if tx.chainId != ARC_CHAIN_ID || expected.chainId != ARC_CHAIN_ID then Some("chainId")
    else if !SameText(expected.signerAddress, expected.configuredSender) then Some("sender")
    else if !SameText(tx.to, expected.account) then Some("destination")
    else if tx.value != 0 then Some("value")
    else if tx.data.OtherCall? then Some("selector")
    else if tx.data.NotDecodable? then Some("data")
    else if expected.mandateId != expected.onChainMandateId then Some("mandateId")
    else if tx.data.mandateId != expected.mandateId then Some("mandateId")
    else if !SameText(tx.data.requestId, expected.requestId) then Some("requestId")
    else if !SameText(tx.data.recipient, expected.recipient) then Some("recipient")
    else if tx.data.amount != expected.amount then Some("amount")
    else if tx.gas <= 0 || tx.gas > expected.maxGas then Some("gas")
    else if tx.maxFeePerGas <= 0 || tx.maxFeePerGas > expected.maxFeePerGasCeiling then Some("fees")
    else if tx.maxPriorityFeePerGas < 0 || tx.maxPriorityFeePerGas > tx.maxFeePerGas
            || tx.maxPriorityFeePerGas > expected.maxPriorityFeePerGasCeiling then Some("fees")
    else if tx.nonce < 0 then Some("nonce")
    else if tx.accessListLength != 0 then Some("accessList")
    else None
  }

  /** What the chain answers between the reserved nonce and the signature. */
  datatype ChainReads = ChainReads(
    activeMandateId: nat, mandateExists: bool, mandateRevoked: bool, mandateAgent: string,
    maxFeePerGas: nat, maxPriorityFeePerGas: nat, gasEstimate: Option<nat>, balance: nat)

  datatype BuildOutcome = Blocked(code: string) | ToSign(tx: UnsignedTx)

  const MANDATE_NOT_ACTIVE := "MANDATE_NOT_ACTIVE"
  const MANDATE_AGENT_MISMATCH := "MANDATE_AGENT_MISMATCH"
  const AGENT_GAS_INSUFFICIENT := "AGENT_GAS_INSUFFICIENT"
  const SIGNER_ENVELOPE_REJECTED := "SIGNER_ENVELOPE_REJECTED"

  function WithMargin(value: nat, thousandths: nat): nat {
    value * thousandths / 1000
  }

  function Gas(seen: ChainReads, kms: KmsConfig): nat {
    match seen.gasEstimate
    case Some(estimate) => Min(WithMargin(estimate, kms.gasMarginThousandths), kms.maxGas)
    case None => kms.maxGas
  }

  function MaxFee(seen: ChainReads, kms: KmsConfig): nat {
    Min(seen.maxFeePerGas, kms.maxFeePerGas)
  }

  function MaxPriorityFee(seen: ChainReads, kms: KmsConfig): nat {
    Min(Min(seen.maxPriorityFeePerGas, kms.maxPriorityFeePerGas), MaxFee(seen, kms))
  }

  function Assemble(mandateId: nat, requestId: string, deps: Dependencies, intent: PaymentIntent, amount: nat,
                    nonce: nat, seen: ChainReads): UnsignedTx {
    UnsignedTx("eip1559", ARC_CHAIN_ID, nonce, deps.context.account, 0,
               Pay(mandateId, requestId, intent.recipient, amount),
               Gas(seen, deps.kms), MaxFee(seen, deps.kms), MaxPriorityFee(seen, deps.kms), 0)
  }

  function Expected(mandateId: nat, requestId: string, deps: Dependencies, intent: PaymentIntent, amount: nat,
                    seen: ChainReads): Expectation {
    Expectation(ARC_CHAIN_ID, deps.signer, deps.signer, deps.context.account, mandateId, seen.activeMandateId,
                requestId, intent.recipient, amount, deps.kms.maxGas, deps.kms.maxFeePerGas,
                  deps.kms.maxPriorityFeePerGas)
  }

  /** What the worker decides from the chain's answers, up to the request for a signature. */
  function Build(mandateId: nat, requestId: string, deps: Dependencies, intent: PaymentIntent, amount: nat, nonce: nat,
                 seen: ChainReads): BuildOutcome {
    if seen.activeMandateId != mandateId then Blocked(MANDATE_NOT_ACTIVE)
    else if !seen.mandateExists || seen.mandateRevoked
      || !SameText(seen.mandateAgent, deps.signer) then Blocked(MANDATE_AGENT_MISMATCH)
    else if seen.balance < deps.kms.gasLowWatermark
      || seen.balance < Gas(seen, deps.kms) * MaxFee(seen, deps.kms) then Blocked(AGENT_GAS_INSUFFICIENT)
    else
      var tx := Assemble(mandateId, requestId, deps, intent, amount, nonce, seen);
      if ValidateSignerEnvelope(tx, Expected(mandateId, requestId, deps, intent, amount,
                                             seen)).Some? then Blocked(SIGNER_ENVELOPE_REJECTED)
      else ToSign(tx)
  }

  /** The same decision with the locals the worker reassigns. */
  method BuildTransaction(mandateId: nat, requestId: string, deps: Dependencies, intent: PaymentIntent, amount: nat,
                          nonce: nat, seen: ChainReads)
    returns (outcome: BuildOutcome)
    ensures outcome == Build(mandateId, requestId, deps, intent, amount, nonce, seen)
  {
    if seen.activeMandateId != mandateId {
      return Blocked(MANDATE_NOT_ACTIVE);
    }
    if !seen.mandateExists || seen.mandateRevoked || !SameText(seen.mandateAgent, deps.signer) {
      return Blocked(MANDATE_AGENT_MISMATCH);
    }
    var maxFeePerGas: nat := Min(seen.maxFeePerGas, deps.kms.maxFeePerGas);
    var maxPriorityFeePerGas: nat := Min(Min(seen.maxPriorityFeePerGas, deps.kms.maxPriorityFeePerGas), maxFeePerGas);
    var gas: nat;
    match seen.gasEstimate {
      case Some(estimate) => gas := WithMargin(estimate, deps.kms.gasMarginThousandths);
      case None => gas := deps.kms.maxGas;
    }
    if gas > deps.kms.maxGas {
      gas := deps.kms.maxGas;
    }
    if seen.balance < deps.kms.gasLowWatermark || seen.balance < gas * maxFeePerGas {
      return Blocked(AGENT_GAS_INSUFFICIENT);
    }
    var tx := UnsignedTx("eip1559", ARC_CHAIN_ID, nonce, deps.context.account, 0,
                         Pay(mandateId, requestId, intent.recipient, amount),
                         gas, maxFeePerGas, maxPriorityFeePerGas, 0);
    var rejected := ValidateSignerEnvelope(tx, Expected(mandateId, requestId, deps, intent, amount, seen));
    if rejected.Some? {
      return Blocked(SIGNER_ENVELOPE_REJECTED);
    }
    return ToSign(tx);
  }

  // -- Main results ------------------------------------------------------------------------------

  /** The envelope check rejects what the worker built exactly when a clamped gas or fee is zero. */
  lemma EnvelopeRejectsOnlyZero(mandateId: nat, requestId: string, deps: Dependencies, intent: PaymentIntent,
                                amount: nat, nonce: nat, seen: ChainReads)
    ensures Build(mandateId, requestId, deps, intent, amount, nonce, seen) == Blocked(SIGNER_ENVELOPE_REJECTED) <==>
            && seen.activeMandateId == mandateId && seen.mandateExists && !seen.mandateRevoked
            && SameText(seen.mandateAgent, deps.signer) && seen.balance >= deps.kms.gasLowWatermark
            && seen.balance >= Gas(seen, deps.kms) * MaxFee(seen, deps.kms)
            && (Gas(seen, deps.kms) == 0 || MaxFee(seen, deps.kms) == 0)
  {
    assert MANDATE_NOT_ACTIVE[0] == 'M' && MANDATE_AGENT_MISMATCH[0] == 'M' && AGENT_GAS_INSUFFICIENT[0] == 'A'
           && SIGNER_ENVELOPE_REJECTED[0] == 'S';
    assert Gas(seen, deps.kms) <= deps.kms.maxGas;
  }

  /** Only a bounded, affordable payment of exactly this intent reaches the signer. */
  predicate SafeToSign(tx: UnsignedTx, mandateId: nat, requestId: string, deps: Dependencies, intent: PaymentIntent,
                       amount: nat, nonce: nat, balance: nat) {
    && tx.nonce == nonce && tx.value == 0 && tx.to == deps.context.account
    && tx.data == Pay(mandateId, requestId, intent.recipient, amount)
    && 0 < tx.gas <= deps.kms.maxGas
    && 0 < tx.maxFeePerGas <= deps.kms.maxFeePerGas
    && 0 <= tx.maxPriorityFeePerGas <= tx.maxFeePerGas
    && tx.maxPriorityFeePerGas <= deps.kms.maxPriorityFeePerGas
    && tx.gas * tx.maxFeePerGas <= balance
  }

  lemma SignedCostIsCovered(mandateId: nat, requestId: string, deps: Dependencies, intent: PaymentIntent, amount: nat,
                            nonce: nat, seen: ChainReads)
    requires Build(mandateId, requestId, deps, intent, amount, nonce, seen).ToSign?
    ensures SafeToSign(Build(mandateId, requestId, deps, intent, amount, nonce, seen).tx, mandateId, requestId, deps,
                       intent, amount, nonce, seen.balance)
    ensures seen.mandateExists && !seen.mandateRevoked && seen.activeMandateId == mandateId
            && SameText(seen.mandateAgent, deps.signer)
    ensures seen.balance >= deps.kms.gasLowWatermark
  {
    assert Gas(seen, deps.kms) <= deps.kms.maxGas;
  }
}
