# Payment protocol: model and proofs

This project models, in Dafny, the parts of the agent-payment system whose mistakes would move money twice,
report a payment that did not happen, or show the wrong history. `dfyconfig.toml` lists the files.

## How the model is built

**The payment journal and its workers** (`Journal`, `Worker`, `Protocol*`, `Enqueue`, `Clarifications`). `PgJournal`
is a class with the two tables as fields; each method is proved equal to one SQL statement written as a function on
tables (`AfterReserve`, `AfterSigned`, ...). `PaymentWorker` is a class that runs a tick one `await` at a time; its
`Step` is proved equal to `Advance`. `Protocol` composes any number of workers over one journal and one chain into a
transition system whose events are: a submission, a claim, one step of one worker (including a crash at any point, a
statement that fails without committing although its guard holds, and one that commits although its acknowledgement
is lost), the clock moving, a receipt being mined and a record being stored. A *run* is any finite sequence of
enabled events from the empty journal. `ProtocolMoves` and `ProtocolInvariant` prove that every event keeps the
invariant `Inv`; `ProtocolTheorems` states what that means for runs. `ProtocolLeases` says who can take a row and
when, `ProtocolTicks` where a tick goes from the row it claimed, `ProtocolReports` what the row holds once the chain
was asked about it, and `ProtocolSent` which rows have been sent. `ProtocolWitness` and `ProtocolBlocked` build
concrete runs for the promises that do not hold and give their exact conditions, `Clarifications` and
`ProtocolLinks` those of two more. *Sent* means handed to the broadcast call, so that the bytes may be on the
network.

**Amounts and instructions** (`Radix`, `Amount`, `AmountExact`, `Instruction`, `InstructionExact`). The decimal parser
and printer over uint256, and the instruction parser that has to read back what the payment form prints; the modules
named `...Exact` say which texts are read, and as what, without the parsers.

**The signer** (`Der`, `DerGrammar`, `Signer`, `Envelope`, `EnvelopeExact`). The DER reader with signed 32-bit lengths
against a grammar of the signature encoding; low-s, parity selection and 32-byte words; the transaction the worker
builds and the envelope check in front of the signature.

**Reconciliation** (`Reconcile`): from a receipt and a stored record to an outcome and what is reported beside it.

**Indexed evidence** (`Subgraph`, `Evidence`). The event handlers as methods on an entity store, folded over any
log the contract can emit, and the reader that pages by cursor through an index that grows between its requests.

**The account contract** (`Account*`). `GolAccount` is a class whose public calls either revert and leave the storage
or append events; every call is proved equal to `Perform`, and every run of calls keeps an invariant in which the
index of the log mirrors the storage. `AccountPolicy` says which calls a contract accepts, which payments it executes
and for which reason it refuses the others. `AccountEvidence` discharges what the reader assumes of the index, and
`AccountOutcome` carries a finished row of the journal to the outcome on the account.

**The browser timeline and the rate limiter** (`Timeline`, `RateLimit`).

Conventions. Hashes, signatures and `pay` calldata are free constructors, so hashing is injective and calldata is
read back as written. Text is `seq<char>`; `toLowerCase` and `trim` act on ASCII. Answers of the chain, the key
service, the language model and the indexing service are arbitrary values wherever a theorem does not restrict them;
the checksum of an address is any function that only changes letter case and keeps the prefix of an address. A call
that throws out of a tick is the same event as a crash: the tick ends and the lease stays. `error_code` is
`varchar(100)` (`agent/src/db/schema.sql:50`): PostgreSQL cuts a longer text whose excess is spaces and refuses any
other, so then the finishing statement fails. Texts hold no NUL. Mandate ids, nonces, sequence numbers and
configuration amounts are natural numbers; the gas margin is given in thousandths, as the worker rounds it.

Assumptions of the contract theorems. The chain gives every outcome a place of its own (transaction hash and log
index) and a call's events the account's own address; a call is one atomic step, as the re-entrancy guard makes it;
sums do not reach 2^256. What the token answers is arbitrary. `ChainIs` states when the chain a worker reads is a
given contract.

Assumptions of the run theorems. Worker ids are unique and a worker runs one tick at a time. `account_links` does
not change; `ProtocolLinks` says which changes of it keep the nonce promises. The context a resolver returns names
the account and the agent of the row's own link, in any letter case, and approved recipients have addresses. The
signer's address is that agent: for `aws_kms` links the startup check enforces it
(`agent/src/payment/worker-entry.ts:80-91`), for `privy` links signed raw it is assumed. A signer returns the
transaction it was given with some signature. The chain only grows: a mined receipt or a stored record is not
replaced. `prepareSigning` holds a lock per lower-case signer address from its first read to its write, while every
other statement may commit in between. The limiter's clock does not go back and each key is used with one maximum.

## Where the code and its documents or comments differ

The model follows the code.

- `ARCHITECTURE.md:107` reads `signer_blocked` as denied before submission. A resolver failure ends any claimed row
  so, even one whose bytes were sent (`ProtocolBlocked.BlockedRowMayHaveBeenSent`). The state in which the row was
  claimed decides (`ProtocolBlocked.WhenBlockedRowsWereSent`): never sent exactly from `queued` and
  `signing_prepared`, always sent exactly from `submitted` and `unknown`, either from `signed`. Any blocked row
  without bytes was never sent, whatever its code (`ProtocolSent.BlockedWithoutBytesNeverSent`), and that covers every
  row blocked by the checks made while its transaction was built
  (`ProtocolTheorems.BlockedWhileBuildingNeverSent`).
- `agent/src/db/journal.ts:23` says a nonce is never reused while a signed artifact exists. A row in `unknown` is
  outside the maximum, so its nonce can be handed out again (`ProtocolWitness.NonceOfUnknownIsReused`);
  `ProtocolWitness.NonceIsReusedExactlyWhen` gives the exact condition, and in every run only rows that have left
  flight share a nonce about to be reserved (`ProtocolTheorems.ReservedNonceLeftFlight`).
- The maximum joins `account_links`, and a link can move on to a new account: the old account's rows in flight are then
  no longer counted (`ProtocolLinks.NextNonceStaysAboveExactlyWhen`).
- A clarification is a terminal state, but the model may ask for one in up to 300 characters and `error_code` holds
  100: on a longer text, unless the excess is spaces, the finishing statement fails and the row stays queued
  (`Clarifications.LongQuestionIsNotStored`; `Clarifications.ModelsQuestionIsStored` has the exact condition from the
  model's answer on).
- Row keys are exact text and reads fold case: after two spellings of one request ID neither can be read back
  (`Enqueue.CaseVariantHidesRequest`; `Enqueue.DuplicateIsReadBack` has the exact condition).
- The payment form accepts any forty hexadecimal digits; the instruction parser reads only lower-case or EIP-55
  text as an address (`Instruction.OtherSpellingIsRefused`, `Instruction.CapitalAddressIsRefused`;
  `Instruction.PrintedInstructionIsRead` has the exact condition).
- `parseDerSignature` is described as strict but accepts non-minimal lengths and padded integers
  (`DerGrammar.LongLengthIsAccepted`). The accepted language is exact (`DerGrammar.Int32ParserMatchesGrammar`), and an
  accepted buffer is the DER form exactly when it is no longer than that
  (`DerGrammar.StrictExactlyWhenShortest`).
- `agent/src/db/journal.ts:266` has recovery send the bytes again after an ambiguous broadcast. By then the row is
  `unknown`, a state `recordBroadcast` does not accept: the accepted rebroadcast is taken for a lost lease, and the tick
  ends without asking for the receipt (`ProtocolTicks.RebroadcastIsMarkedExactlyWhen`). The row stays unknown until a
  later tick finds the receipt first (`ProtocolTicks.DispatchIsExact`).
- Redelivering a `MandateCreated` event resets spending and revocation (`Subgraph.RecreationResets`), unlike
  redelivering an outcome (`Subgraph.RedeliveriesChangeNothing`).
- `partial` is set when exactly one hundred records exist, although nothing was cut
  (`Evidence.EvidenceIsTheNewestHundred`).
- Pruning confirmed overlays before merging changes nothing, whatever is pending, exactly when every request some
  record tells of is told of by the first record of some action (`Timeline.PruneIsHarmlessExactlyWhen`). Records of one
  action that agree on the request are enough (`Timeline.AgreementLosesNoRequest`), but not needed
  (`Timeline.AgreementIsNotNeeded`).
- `formatNativeGas` can leave trailing zeros; `Amount.NativeGasIsShortestExactlyWhen` says exactly when it does not.

## Model

| member | source | states |
|---|---|---|
| ProtocolTheorems.StepKeepsInv | agent/src/payment/worker.ts:122-426 | whatever worker does whatever next, crashes, or sees a statement fail or go unacknowledged, or the chain or clock moves: the fleet invariant holds again and every row is still there in a later version |
| ProtocolTheorems.RunsAreGood | agent/src/payment/worker-entry.ts:138-179 | every world of every interleaving of a raw-mode fleet satisfies the invariant |
| ProtocolTheorems.PersistedBeforeSent | agent/src/payment/worker.ts:337-360 | when bytes first leave the process they are already committed on their row, and stay so for the rest of the run |
| ProtocolTheorems.SignedOnce | agent/src/db/journal.ts:232-253 | committed bytes never change although the guard admits `signed`; the row's hash is theirs and no other hash is ever recorded for the row |
| ProtocolTheorems.OneTransactionPerRow | agent/src/payment/worker.ts:337-360 | at most one byte string per request row reaches the network, over all workers and recoveries |
| ProtocolTheorems.LeaseFences | agent/src/db/journal.ts:97-124 | while the lease names a worker in a tick, the stored row is exactly what that worker last committed, and its locals fit it |
| ProtocolTheorems.StaleWorkerWritesNothing | agent/src/db/journal.ts:240-309 | a worker whose row is leased to somebody else changes no table, in any phase, for any answer |
| ProtocolTheorems.RowsOnlyAdvance | agent/src/payment/worker.ts:149-195 | rank never decreases, written-once fields never change, terminal rows never change at all |
| ProtocolTheorems.InFlightNoncesDiffer | agent/src/db/journal.ts:169-229 | two in-flight rows of one signer never hold the same nonce |
| ProtocolTheorems.ReservedNonceIsAbove | agent/src/db/journal.ts:197-224 | the nonce about to be written is at least the pending nonce read and above every nonce its signer has in flight, whatever committed since the maximum was read |
| ProtocolTheorems.ReservedNonceLeftFlight | agent/src/db/journal.ts:197-224 | in every world of every run, a row of the signer that holds the nonce about to be reserved is unknown or terminal, and the pending count read is not past it |
| ProtocolTheorems.UnknownStaysClaimable | agent/src/db/journal.ts:104-107 | every unknown row keeps bytes and hash and is claimable once its lease is over |
| ProtocolTheorems.FallbacksAreUnreachable | agent/src/payment/worker.ts:149-195 | no claimed row is ever dispatched to an ambiguous-state or missing-intent fallback |
| ProtocolTheorems.IntentIsNeverMissing | agent/src/payment/worker.ts:382-396 | after any broadcast, rebroadcast or nonce too low of any run the reconciliation has its intent: the missing-intent fallback is not taken |
| ProtocolTheorems.PreparingFindsQueued | agent/src/db/journal.ts:183-196 | under the lock the row is queued or the lease is lost: drift, ambiguity and reuse do not occur |
| ProtocolTheorems.ReconciledHashIsStored | agent/src/payment/worker.ts:350-426 | on the fresh, recovery and nonce-too-low paths the hash asked about is the row's own |
| ProtocolTheorems.OutcomesAreProved | agent/src/payment/submit-payment.ts:45-147 | a row is executed, refused or failed only if the receipt of its own hash and its event or stored record show that outcome for its request, mandate, agent, recipient and amount |
| ProtocolTheorems.EverySigningPaysTheRow | agent/src/payment/worker.ts:176-223 | every transaction ever handed to a signer for a row, before or after crashes, carries the row's nonce, mandate, request, recipient and amount |
| ProtocolTheorems.BlockedWhileBuildingNeverSent | agent/src/payment/worker.ts:228-320 | a row blocked by mandate, gas or envelope checks has no bytes and is never broadcast, before or after |
| ProtocolLeases.ClaimsTakeTheOldest | agent/src/db/journal.ts:97-124 | a row can be claimed exactly when it is recoverable, linked to the worker's kind of signer, without a lease that still runs, not locked, and no such row is older |
| ProtocolLeases.ClaimsLeaseForThirtySeconds | agent/src/db/journal.ts:112-118 | a claim leases the row to the worker until thirty seconds from now, and changes nothing else of any row |
| ProtocolLeases.ClaimedIsNobodysNext | agent/src/db/journal.ts:97-124 | in any run, for thirty seconds after a claim and until a finish of its holder releases it, nobody can claim the row |
| ProtocolLeases.ClaimsAreApart | agent/src/db/journal.ts:97-124 | between two claims of one row in a run more than thirty seconds pass, or a committed finish of its holder released it |
| ProtocolReports.ShownOutcomeIsStored | agent/src/payment/worker.ts:382-426 | in any run, when a worker that keeps its row is told of the receipt and its finish commits, and the chain shows an outcome for the row's own fields: the row ends in exactly that outcome, released, with its own amount as attempted and the rule and headroom of the first outcome log or, on silence, of the stored record; everything else of it is unchanged |
| ProtocolReports.NothingShownStaysOpen | agent/src/payment/worker.ts:382-426 | without a receipt, or with one that shows no outcome for the row, the finish leaves the row unknown and released, with its bytes, hash and nonce, and the code of the note it carried |
| ProtocolTicks.DispatchIsExact | agent/src/payment/worker.ts:149-195 | from any row a run can hold: queued is read, prepared is built again under its own nonce and intent, unknown with a receipt is reconciled without being sent, and every other has exactly its own bytes sent again |
| ProtocolTicks.RowsWithoutBytesAreNotSent | agent/src/payment/worker.ts:149-195 | a row without bytes, whatever its history, is asked about, built, read or left unknown, but never sent; which of these, exactly |
| ProtocolTicks.RebroadcastIsMarkedExactlyWhen | agent/src/payment/worker.ts:350-380 | a recovery tick without a receipt sends exactly the row's own bytes; when they are accepted the row is marked, and its hash asked about, if and only if it is signed or submitted, and the tick of an unknown row ends there |
| ProtocolTicks.FreshPaymentIsSent | agent/src/payment/worker.ts:122-360 | a whole tick of a fresh payment: the parsed amount to the parsed recipient is signed under the row's request and mandate, with the next nonce and the clamped fees, recorded, sent once and marked, and its own hash is what is asked about next |
| ProtocolTicks.ResolverFailureIsExact | agent/src/payment/worker.ts:126-136 | a failed resolver ends the row as blocked, with the code for what its message mentions |
| ProtocolTicks.BuildingIsExact | agent/src/payment/worker.ts:228-320 | while building, a row is blocked for the first thing that is wrong, with the amount attempted, or its payment goes to the signer |
| ProtocolTicks.OtherBroadcastsAreExact | agent/src/payment/worker.ts:350-380 | a nonce too low is asked about under the hash of the bytes, with that note; any other failure is noted on the row, which is then left unknown |
| ProtocolTicks.FailedFinishIsRetried | agent/src/payment/worker.ts:397-426 | a finish that fails changes nothing and is followed by the one that leaves the row open, and that by none |
| Clarifications.ClarificationIsStored | agent/src/payment/worker.ts:203-209 | a clarification is stored, cut to a hundred characters, and ends its row exactly when only spaces follow those; the parser's own texts always fit |
| Clarifications.ModelsQuestionIsStored | agent/src/payment/parse-instruction.ts:117-122 | for every instruction that goes to the model and every question it answers with: stored exactly when the first 300 characters hold only spaces after the hundredth |
| Clarifications.LongQuestionIsNotStored | agent/src/payment/parse-instruction.ts:117-122 | one such input: an instruction of one word, answered with 101 letters, is not stored |
| ProtocolSent.StepKeepsSent | agent/src/payment/worker.ts:122-426 | every event keeps it: rows and workers past the broadcast have been sent |
| ProtocolSent.LaterStatesWereSent | agent/src/payment/worker.ts:350-426 | a row that is submitted, unknown, executed, refused or failed has had its own bytes sent |
| ProtocolSent.BlockedWithoutBytesNeverSent | agent/src/payment/worker.ts:126-136 | a row blocked without bytes is sent in no world of the run, whatever its code |
| ProtocolSent.BlockedAsClaimed | agent/src/payment/worker.ts:122-136 | a row blocked by a failed resolver is, until then, in the state it was claimed in, and keeps its bytes |
| ProtocolBlocked.WhenBlockedRowsWereSent | agent/src/payment/worker.ts:122-136 | rows blocked by a failed resolver were never sent, in any run, if and only if claimed queued or prepared, and were always sent if and only if claimed submitted or unknown; six runs show that neither can be widened |
| ProtocolInvariant.StoredIntentIsTheIntent | agent/src/payment/worker.ts:625-628 | the recorded amount, printed and parsed again, is the same amount to the same recipient |
| ProtocolInvariant.RouteIsGood | agent/src/payment/worker.ts:149-195 | from any row a run can hold, the dispatch goes on with a phase whose locals agree with the row |
| ProtocolBlocked.BlockedRowMayHaveBeenSent | agent/src/payment/worker.ts:126-136 | a run that blocks a row whose bytes have been sent |
| ProtocolWitness.NonceOfUnknownIsReused | agent/src/db/journal.ts:197-208 | a reachable world in which a sent, unknown row holds the nonce its signer would be given next |
| ProtocolWitness.NonceIsReusedExactlyWhen | agent/src/db/journal.ts:197-210 | exactly when the next nonce is one held before: no other in-flight row is at or above it, the pending count is not above it, and it is that count or the successor of an in-flight nonce |
| ProtocolLinks.NoncesStayDistinctExactlyWhen | agent/src/db/journal.ts:197-208 | a change of links keeps in-flight nonces distinct, whatever the rows, if and only if it merges no two agents |
| ProtocolLinks.NextNonceStaysAboveExactlyWhen | agent/src/db/journal.ts:197-210 | after a change of links the next nonce is above all that were in flight before, whatever the rows, if and only if every account of the signer keeps it |
| Journal.NextNonce | agent/src/db/journal.ts:197-210 | least nonce that is at least the pending count and above every other in-flight nonce of the signer |
| Journal.NextNonceIsLeast | agent/src/db/journal.ts:197-210 | it is the least of all such nonces, over the rows prepared, signed, submitted or pending of that signer in any letter case |
| Journal.PgJournal.Enqueue | agent/src/db/journal.ts:45-86 | inserts unless the exact key is taken, else reads back: the row, a conflict, or not found |
| Journal.PgJournal.ClaimNext | agent/src/db/journal.ts:97-124 | leases an oldest claimable row and changes nothing else; nothing is returned exactly when none is claimable |
| Journal.PgJournal.PrepareSigning | agent/src/db/journal.ts:169-229 | fresh, reused, drifted, ambiguous or lost, and the tables after each |
| Journal.PgJournal.Reserve | agent/src/db/journal.ts:210-227 | the reserving statement under its guard |
| Journal.PgJournal.RecordSigned | agent/src/db/journal.ts:232-253 | bytes, hash and key recorded together with the transaction entry, only by the lease holder |
| Journal.PgJournal.RecordBroadcast | agent/src/db/journal.ts:256-264 | `submitted` only from `signed` or `submitted`, only by the lease holder |
| Journal.PgJournal.RecordBroadcastError | agent/src/db/journal.ts:267-274 | the note cut to 100 characters, only by the lease holder, silently otherwise |
| Journal.PgJournal.Finish | agent/src/db/journal.ts:276-309 | the result is stored, its error code as the column keeps it, and the lease released: only by the lease holder and only if the code fits its column |
| Journal.GuardsAreExact | agent/src/db/journal.ts:183-309 | what the locked read answers and which rows each write takes, exactly |
| Worker.PaymentWorker.Claim | agent/src/payment/worker.ts:122-127 | a tick starts on the row it leased |
| Worker.PaymentWorker.Step | agent/src/payment/worker.ts:126-426 | the object's journal and locals move exactly as the transition function says |
| Worker.PaymentWorker.RunStatement | agent/src/payment/worker.ts:206-426 | each writing phase runs its one journal statement |
| Enqueue.DuplicateIsReadBack | agent/src/db/journal.ts:45-86 | a held key submitted again changes nothing, and which of the three answers it gets, exactly |
| Enqueue.StoredRowIsTheSubmission | agent/src/db/journal.ts:45-72 | a first submission adds one row: its own fields, trimmed text, queued, unleased, nothing decided |
| Enqueue.SameInputExactly | agent/src/db/journal.ts:332-341 | two inputs have one hash exactly when they agree up to letter case of account and request and space around the text |
| Enqueue.FirstThenDuplicate | agent/src/db/journal.ts:45-86 | a first submission is stored and an immediate repeat returns it unless a row differing in letter case exists |
| Enqueue.CaseVariantHidesRequest | agent/src/db/journal.ts:60-86 | any two submissions whose request IDs differ in letter case only make two rows, after which both are answered as not found |
| Enqueue.TwoSpellings | packages/protocol/src/types.ts:4 | two such request IDs of 64 hexadecimal digits |
| Reconcile.FindOutcomeEvent | agent/src/payment/submit-payment.ts:123-147 | the first outcome the account logged for this request and mandate, or none exists |
| Reconcile.FoundIsShown | agent/src/payment/submit-payment.ts:123-147 | the scan finds an event exactly when some log of the account is an outcome of the request, and then the first one |
| Reconcile.ReportedIffProved | agent/src/payment/submit-payment.ts:45-121 | an outcome is reported if and only if the chain proves it: by a revert, by the first log there is of the request, or by silence of the logs and the stored record |
| Reconcile.ProofIgnoresSpelling | agent/src/payment/submit-payment.ts:114-147 | contexts that differ in letter case only prove the same outcomes |
| Reconcile.ScanTakesTheFirstRelevant | agent/src/payment/submit-payment.ts:123-147 | the scan takes the first of the logs of the account that have topics, decode, and are an outcome of the request and mandate |
| Reconcile.ReportIsExact | agent/src/payment/submit-payment.ts:45-112 | whatever is reported carries the amount asked for, and the rule, by its number, and the headroom of the first outcome log or, on silence, of the record; a revert carries neither |
| Envelope.BuildTransaction | agent/src/payment/worker.ts:228-320 | the worker's reassigned locals compute the decision `Build` |
| Envelope.EnvelopeRejectsOnlyZero | agent/src/signers/envelope.ts:43-115 | a transaction the worker built is rejected if and only if its clamped gas or fee is zero |
| Envelope.SignedCostIsCovered | agent/src/payment/worker.ts:228-335 | a signature is asked for only within all ceilings, for the active mandate of this signer, at a cost the balance covers |
| EnvelopeExact.AmountsAreClamped | agent/src/payment/worker.ts:255-300 | gas is the estimate with its margin rounded down, within its ceiling, and the ceiling without an estimate; fee and priority fee are the largest within what the chain asks, their ceilings and each other |
| EnvelopeExact.BuildsExactly | agent/src/payment/worker.ts:228-335 | which of the four codes blocks a payment, exactly, and otherwise the payment with exactly the clamped amounts |
| EnvelopeExact.EnvelopePassesExactly | agent/src/signers/envelope.ts:43-115 | of all transactions, whoever built them, exactly those pass that pay the expected request within the ceilings |
| EnvelopeExact.FirstWrongFieldIsReported | agent/src/signers/envelope.ts:43-115 | of seventeen conditions in order, the field of the first that fails is reported |
| Amount.ParseOfFormat | packages/protocol/src/amount.ts:14-46 | parsing a printed amount gives it back, for every amount in 1..2^256-1 |
| Amount.FormatOfParse | packages/protocol/src/amount.ts:14-46 | printing a parsed text gives the text without trailing fraction zeros or a bare dot |
| Amount.ParseIsInjectiveUpToTrim | packages/protocol/src/amount.ts:14-46 | two accepted texts are the same amount exactly when they differ in redundant zeros only |
| Amount.NativeGasRoundsDown | packages/protocol/src/amount.ts:49-53 | the gas view denotes floor(w / 10^12) millionths |
| Amount.NativeGasIsShortestExactlyWhen | packages/protocol/src/amount.ts:49-53 | the gas view is the exact printer's text of the rounded amount if and only if nothing was cut off or the last digit kept is not zero |
| AmountExact.ParsesExactly | packages/protocol/src/amount.ts:14-28 | exactly the canonical integers with at most six fraction digits are read, as the millionths they denote; zero and more than 2^256-1 are refused |
| Instruction.PaymentsAreContained | agent/src/payment/parse-instruction.ts:23-147 | for any text and any model output a payment has a valid amount and, unless any recipient is allowed, an approved recipient |
| Instruction.GroupsOfPrinted | agent/src/payment/parse-instruction.ts:73-85 | the fixed form is split back into its amount and destination |
| Instruction.PrintedInstructionIsRead | web/src/components/Dashboard.tsx:2520-2538 | the form's text is read back as that amount to that address if and only if the address is spelled and approved as the parser wants, whatever the model says |
| Instruction.OtherSpellingIsRefused | agent/src/payment/parse-instruction.ts:73-106 | an address in any spelling but lower case and EIP-55, and not a label, is not paid, even where any recipient is allowed, for any checksum |
| Instruction.CapitalAddressIsRefused | agent/src/payment/parse-instruction.ts:73-106 | so an address the form accepts in capitals is not paid, for any checksum that does not capitalise all its letters |
| InstructionExact.FixedFormExactly | agent/src/payment/parse-instruction.ts:73-85 | a text splits into an amount and a destination exactly when it is a verb, space, a token, space, `usdc`, space, `to`, space and one line of destination, and into those |
| InstructionExact.TrimTakesTheSpaces | agent/src/payment/parse-instruction.ts:23-32 | what is read is the text without the space around it |
| InstructionExact.FixedFormPaysExactly | agent/src/payment/parse-instruction.ts:73-106 | in the fixed form: a payment exactly when the amount is one and the destination is an allowed address, the address of one entry, or the title of one entry; it pays that amount to that address, or to the address of that entry |
| InstructionExact.ModelPaysExactly | agent/src/payment/parse-instruction.ts:108-147 | outside the fixed form: a payment exactly when the model names a spelled address that is approved or any is allowed, and an amount; it pays that amount text to that very address |
| InstructionExact.OtherwiseClarifies | agent/src/payment/parse-instruction.ts:23-147 | which clarification is given for everything else, by the first thing that is wrong |
| Der.ReadTlv | agent/src/signers/aws-kms-signer.ts:294-324 | the loop computes the element at an offset, with its int32 length and every refusal |
| Der.DerIntegerToBigInt | agent/src/signers/aws-kms-signer.ts:265-286 | the loop drops leading zeros but the last octet, then bounds size and value |
| Der.Int32RefinesExact | agent/src/signers/aws-kms-signer.ts:239-324 | below 2^31 octets, wrapping lengths and exact lengths accept the same inputs with the same values |
| DerGrammar.DerIntegerAccepts | agent/src/signers/aws-kms-signer.ts:265-286 | an INTEGER content is read as v exactly if it is non-negative, denotes v, and 1 <= v < N, padded or not |
| DerGrammar.ParserMatchesGrammar | agent/src/signers/aws-kms-signer.ts:239-263 | the parser accepts exactly the grammar, with the values the grammar gives |
| DerGrammar.Int32ParserMatchesGrammar | agent/src/signers/aws-kms-signer.ts:239-324 | so does the parser with 32-bit lengths, below 2^31 octets |
| DerGrammar.AcceptedTiles | agent/src/signers/aws-kms-signer.ts:239-263 | on acceptance the SEQUENCE is the whole buffer and the two INTEGERs tile its content |
| DerGrammar.ParseOfEncode | agent/src/signers/aws-kms-signer.ts:239-286 | the canonical encoding of (r, s) parses to (r, s), for all 1 <= r, s < N |
| DerGrammar.StrictExactlyWhenShortest | agent/src/signers/aws-kms-signer.ts:238-263 | what is accepted is never shorter than the DER form of its signature, and is that form if and only if it is as short |
| DerGrammar.LongLengthIsAccepted | agent/src/signers/aws-kms-signer.ts:294-324 | an accepted buffer that is not DER |
| DerGrammar.LowS | agent/src/signers/aws-kms-signer.ts:107-113 | the normalised s lies in 1..(N-1)/2, and two scalars normalise alike exactly if equal or complementary |
| DerGrammar.Hex32RoundTrip | agent/src/signers/aws-kms-signer.ts:326-328 | the 32-byte hex text reads back as the scalar |
| DerGrammar.SignatureWords | agent/src/signers/aws-kms-signer.ts:106-113 | from accepted octets to two words that decode to r and to the low one of s and N-s |
| Signer.SelectParity | agent/src/signers/aws-kms-signer.ts:115-136 | the one parity that recovers to the key's address; both, none or a throwing recovery is an error |
| Signer.AwsKmsSigner.Load | agent/src/signers/aws-kms-signer.ts:153-181 | the key loaded before, or each refusal in order, or the configured address, which is then kept |
| Signer.KeyLoadsExactly | agent/src/signers/aws-kms-signer.ts:153-181 | which of the five errors a key gives, by the first misfit, and that otherwise its address is loaded |
| Signer.AwsKmsSigner.SignTransaction | agent/src/signers/aws-kms-signer.ts:86-151 | every refusal in order, of the key, the transaction, the octets and the recovery, else the chosen words |
| Signer.EquivalentSignaturesSignAlike | agent/src/signers/aws-kms-signer.ts:104-151 | (r, s) and (r, N-s), in whatever encoding, give the same signed words or the same error |
| Signer.SignedExactlyWhenRecovered | agent/src/signers/aws-kms-signer.ts:86-151 | signed if and only if the key loads, the transaction is admissible, the octets parse and exactly one parity recovers; then the words recover to the configured address under that parity only and are low-s |
| Subgraph.Index.HandleMandateCreated | subgraph/src/account.ts:31-53 | the store after the handler is the fold's step |
| Subgraph.Index.HandleMandateRevoked | subgraph/src/account.ts:55-65 | the store after the handler is the fold's step |
| Subgraph.Index.HandleWithdrawn | subgraph/src/account.ts:67-71 | the store after the handler is the fold's step |
| Subgraph.Index.HandleExecuted | subgraph/src/account.ts:81-107 | the store after the handler is the fold's step; a known action is left alone |
| Subgraph.Index.HandleRefused | subgraph/src/account.ts:118-137 | the store after the handler is the fold's step; a known action is left alone |
| Subgraph.IndexAgreesWithLog | subgraph/src/account.ts:31-107 | after any log the contract can emit, each mandate's spent is what the log paid and the sum of what its executed actions transferred |
| Subgraph.ActionsAreLogged | subgraph/src/account.ts:81-137 | the stored action ids are exactly those of the outcome events |
| Subgraph.ActionsTellOfTheirEvents | subgraph/src/account.ts:73-137 | every stored action is what its outcome event says, in every field |
| Subgraph.MandatesAreTheirHistories | subgraph/src/account.ts:31-107 | every stored mandate is its creation, with what was paid under it and whether it was revoked |
| Subgraph.RedeliveriesChangeNothing | subgraph/src/account.ts:81-137 | any schedule that redelivers outcomes, at any time and in any order, ends in the store of the plain log |
| Subgraph.RecreationResets | subgraph/src/account.ts:31-53 | a redelivered creation is harmless exactly if its mandate is unspent and not revoked |
| Subgraph.StoredActionsPass | agent/src/query/activity.ts:336-346 | whatever events arrive, every stored action passes the reader's transfer checks |
| Subgraph.MandateKeysAgree | subgraph/src/account.ts:11-13 | two mandate keys are equal exactly if account and mandate are |
| Subgraph.LifecycleIsShown | subgraph/src/account.ts:15-71 | the lifecycle entities are exactly those of the log's creations, revocations and withdrawals, each with the kind, amount, mandate and agent of the last at its position |
| Evidence.FetchPage | agent/src/query/activity.ts:317-348 | the page if every record passes, else which failure |
| Evidence.GetAnswerEvidence | agent/src/query/activity.ts:272-315 | the loop computes the recursive collection of pages |
| Evidence.HonestPage | agent/src/query/activity.ts:141-194 | a page of an honest service is the newest wanted records below the cursor, and passes the checks |
| Evidence.QueryAsksForTheWanted | agent/src/query/activity.ts:141-194 | the query matches exactly the records of the account with the outcome, rule, mandate, agent and times that scope and filter ask for, below the cursor, at most the clamped page |
| Evidence.CorruptPagesAreRefused | agent/src/query/activity.ts:317-348 | a page is refused as corrupt exactly when it does not parse or holds a record of another account or a wrong transfer, and is else taken whole |
| Evidence.EvidenceFailsWithAPage | agent/src/query/activity.ts:272-315 | whatever the service answers, evidence is withheld only for a page that fails, with its reason, and never given when the page at hand fails |
| Evidence.EvidenceIsTheNewestHundred | agent/src/query/activity.ts:272-315 | over an index that grows between requests: exactly the newest min(100, n) records as of the first page, partial iff n >= 100, with the last record's sequence as cursor, never cut by the four-request bound |
| Evidence.CursorReachesEverything | agent/src/query/activity.ts:212-238 | following the cursor to its end, for every page size, yields every wanted record below the first bound once |
| Evidence.EvidenceContinues | agent/src/query/activity.ts:212-315 | following the cursor of partial evidence to its end gives, with the evidence, every wanted record the index held at the first request |
| Evidence.NewestDescends | agent/src/query/activity.ts:145-152 | in strictly descending order of sequence |
| Account.GolAccount.CreateMandate | contracts/src/GolAccount.sol:132-184 | every refusal in order, else the previous mandate is revoked, the new one is active, and both are logged |
| Account.GolAccount.CheckRecipients | contracts/src/GolAccount.sol:152-160 | the loop finds the first fault of the list |
| Account.GolAccount.RevokeMandate | contracts/src/GolAccount.sol:186-194 | revokes once, and logs once |
| Account.GolAccount.Withdraw | contracts/src/GolAccount.sol:196-202 | only the owner, only what the token pays, logged |
| Account.GolAccount.Pay | contracts/src/GolAccount.sol:204-261 | a refusal, a recorded outcome again, a conflict, or a new outcome with its record, spending and event |
| Account.GolAccount.ExecutePayment | contracts/src/GolAccount.sol:263-302 | record, spending, sequence and event of an execution |
| Account.GolAccount.RecordRefusal | contracts/src/GolAccount.sol:304-342 | record, sequence and event of a refusal |
| AccountPolicy.NewRequestsFollowThePolicy | contracts/src/GolAccount.sol:204-342 | in any run of calls a new request is executed exactly when the call is proper, the mandate is active, unexpired, lists the recipient or nobody, and both caps hold, and the token pays; it is refused exactly when one of the five fails, with the number and reason of the first; what the event, storage and numbering say of it |
| AccountPolicy.OutcomesComeFromNewPayments | contracts/src/GolAccount.sol:263-342 | only a proper payment of a new request adds an outcome to the log, and one |
| AccountPolicy.PaymentRefusalsAreOrdered | contracts/src/GolAccount.sol:204-302 | which error a payment reverts with, exactly, by the first thing that is wrong |
| AccountPolicy.CreationIsExact | contracts/src/GolAccount.sol:132-184 | in any run, a mandate is created exactly for the owner, with an agent of its own, ordered caps, an end within thirty days and at most twenty distinct recipients; it is then the only live one |
| AccountPolicy.CreationRefusalsAreOrdered | contracts/src/GolAccount.sol:132-166 | which error a creation reverts with, exactly; a list is judged by its first wrong entry |
| AccountPolicy.RevocationIsExact | contracts/src/GolAccount.sol:186-194 | only the owner revokes, one existing mandate and no other, once |
| AccountPolicy.WithdrawalIsExact | contracts/src/GolAccount.sol:196-202 | only the owner withdraws, a positive amount the token pays, which only the log shows |
| AccountTheorems.CallsKeepGood | contracts/src/GolAccount.sol:132-342 | whoever calls whatever, the log stays one the index can be built from, the index mirrors the storage, spending stays within caps, records match outcomes |
| AccountTheorems.CallRunsAreGood | contracts/src/GolAccount.sol:132-342 | so in every state of every run of calls |
| AccountTheorems.RepeatedPaymentsChangeNothing | contracts/src/GolAccount.sol:218-225 | a payment repeated at any later time returns its first outcome and changes nothing; another payment under its ID reverts |
| AccountTheorems.OneOutcomePerRequest | contracts/src/GolAccount.sol:204-342 | a request has at most one outcome event, ever |
| AccountTheorems.SpendingIsCapped | contracts/test/GolAccount.invariant.t.sol:77-81 | what the log says was paid under a mandate never exceeds its cumulative cap |
| AccountTheorems.IndexMirrorsContract | subgraph/src/account.ts:31-107 | the index of the log holds exactly the contract's mandates, in every field |
| AccountTheorems.IndexedActionsAreTheRequests | subgraph/src/account.ts:73-137 | the index holds one action for every request the contract recorded, telling the same in every field, and no other |
| AccountEvidence.ListedIsStored | subgraph/src/account.ts:81-137 | the outcomes in log order are exactly the actions the index stores |
| AccountEvidence.ContractIndexGrows | agent/src/query/activity.ts:272-315 | whatever the contract does between requests, its index grows as the reader needs: by prefix, in ascending order, passing the checks |
| AccountEvidence.MandateFilterSelects | agent/src/query/activity.ts:164-169 | the reader's mandate key selects exactly the outcomes of that mandate, as the handlers keyed them |
| AccountEvidence.EvidenceOfContract | agent/src/query/activity.ts:272-315 | over a contract that goes on paying, the evidence is the newest hundred wanted outcomes as of the first request |
| AccountOutcome.EventAndGetterAgree | agent/src/payment/submit-payment.ts:45-112 | a worker that misses the event and asks the getter reports the same result |
| AccountOutcome.ProvedOutcomeHappened | agent/src/payment/submit-payment.ts:45-147 | a proved outcome is an outcome of the account's log for that request, mandate, agent, recipient and amount |
| AccountOutcome.FinishedRowsHappened | agent/src/payment/worker.ts:382-426 | in any run of the fleet beside any run of the contract, a row shown executed or refused has that outcome on the account, and its request has no other |
| Timeline.MergeTimeline | web/src/client/timeline.ts:80-118 | the two scans and the sort compute `Merged` |
| Timeline.OverlaysAreTheUnindexed | web/src/client/timeline.ts:101-109 | a pending entry is shown if and only if it is the first of its request and neither its request nor its hash is indexed |
| Timeline.OverlaysDifferInRequest | web/src/client/timeline.ts:101-109 | at most one overlay per request |
| Timeline.RecordsCoverEachActionOnce | web/src/client/timeline.ts:85-99 | one record per action, its first, and one for every action |
| Timeline.StableSortIsStable | web/src/client/timeline.ts:111-118 | newest first, a permutation, equal times in given order |
| Timeline.StableOrderIsUnique | web/src/client/timeline.ts:111-118 | there is only one stable newest-first order, so any stable sort gives it |
| Timeline.OnChainPartIsTheStableOrder | web/src/client/timeline.ts:80-118 | a list is the merge if and only if it is the overlays followed by a stable newest-first order of records and lifecycle events |
| Timeline.MergedIsNewestFirst | web/src/client/timeline.ts:80-137 | overlays first, then everything on the chain newest first by its seconds, each entry under its own kind of key |
| Timeline.EntryKeysDiffer | web/src/client/timeline.ts:80-118 | no two entries have one key, when action ids start as hexadecimal text does and lifecycle ids are distinct |
| Timeline.StillPendingExactly | web/src/client/timeline.ts:139-146 | pruning keeps a pending entry exactly when no record has both its request and its hash |
| Timeline.PruneIsHarmlessExactlyWhen | web/src/components/GolApp.tsx:392-397 | dropping indexed entries first leaves the merged list unchanged for every pending list if and only if no request is lost with an action's later records |
| Timeline.AgreementLosesNoRequest | web/src/client/timeline.ts:90-99 | records of one action that agree on the request, as identical ones do, lose none |
| Timeline.PruneNeedsAgreement | web/src/client/timeline.ts:139-146 | two records of one action that tell of two requests: a pending list whose merge the pruning changes |
| RateLimit.Limiter.RateLimit | web/src/server/core.ts:77-84 | on the pruned list, admits exactly if fewer than the maximum of the whole history lie in the last sixty seconds |
| RateLimit.WindowsAreBounded | web/src/server/core.ts:77-84 | no sixty-second window of an admitted history holds more than the maximum |
| RateLimit.LimiterBoundsWindows | web/src/server/core.ts:77-84 | so for every key of a limiter at every moment |

## Left out

- The hosted-wallet path (`runPrivy`, `submitPrivy`, `recordSubmission`, `markSigning`): the worker entry builds no such mode.
- The factory, the token and the native gas of the account; the fleet's own theorems leave the chain arbitrary, and only `AccountOutcome` ties it to the contract.
- keccak256, ECDSA recovery, RLP and ABI encoding: free constructors, or a parameter for recovery.
- `parseSpkiEcPublicKey`: the public key's address, or its failure to parse, is part of the key service's answer.
- Chain reorganisations and changes of `account_links` during a run: the run theorems assume neither; `ProtocolLinks` says what a change does to nonces.
- SKIP LOCKED and advisory-lock keys: a claim skips an arbitrary set of locked rows; the signer lock is exact, without hash collisions.
- HTTP, RPC, indexing, language-model and AWS clients: their answers are arbitrary values, their failures end a tick or a page.
- Worker.PaymentWorker.Step: the model cuts a tick at its awaits and keeps the live locals as a phase value; it does not model the JavaScript stack.
- Envelope.BuildTransaction: the gas margin is given in thousandths; the floating-point rounding that produces them is not modelled.
- Signer.AwsKmsSigner.SignTransaction: the signed bytes stand for their words; the address of a public key is part of the key service's answer.
- Reading lifecycle records back, and the freshness of `getActivity` pages: each follows from reading one branch.
- Timestamps beyond 2^53 in `timelineTimestamp`, where the original compares rounded numbers.
- `filterTimeline`, pending-reference storage, `constantTimeEqual`, session handling and all rendering.
- Chat routing, tool catalogue, policy text, preflight and demo scripts.
