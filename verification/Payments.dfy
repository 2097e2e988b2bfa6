/**
 * Values shared by the payment modules. Hashes, calldata and signatures are free constructors: two
 * are equal only if their arguments are, and calldata is read back as it was written.
 */
module Payments {
  import opened Prelude
  import opened Instruction

  type WorkerId = string
  type RowId = nat

  const ARC_CHAIN_ID: int := 5_042_002

  datatype Calldata =
    | Pay(mandateId: nat, requestId: string, recipient: string, amount: nat)
    | OtherCall(selector: string)
    | NotDecodable(text: string)

  datatype UnsignedTx = UnsignedTx(
    kind: string, chainId: int, nonce: int, to: string, value: int, data: Calldata,
    gas: int, maxFeePerGas: int, maxPriorityFeePerGas: int, accessListLength: nat)

  /** Serialized signed bytes: they determine the transaction and its signature. */
  datatype RawTx = RawTx(body: UnsignedTx, signature: nat)

  datatype TxHash = KeccakOf(raw: RawTx)

  datatype IntentHash = IntentHashOf(
    chainId: int, account: string, mandateId: nat, requestId: string, recipient: string, amount: nat)

  /** The part of a worker context that names the accounts involved. */
  datatype Context = Context(account: string, agentAddress: string)

  datatype KmsConfig = KmsConfig(
    keyArn: string, maxGas: nat, maxFeePerGas: nat, maxPriorityFeePerGas: nat,
    gasMarginThousandths: nat, gasLowWatermark: nat)

  datatype Dependencies = Dependencies(
    context: Context, signer: string, kms: KmsConfig,
    recipients: seq<RecipientLabel>, allowAny: bool, checksum: Checksum)
}
