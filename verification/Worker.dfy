/**
 * One worker of `agent/src/payment/worker.ts`, cut at every await: a phase holds the locals that are
 * alive there, an answer is what the awaited call returns, and `Advance` runs to the next await.
 */
module Worker {
  import opened Prelude
  import opened Amount
  import opened Instruction
  import opened Payments
  import opened Envelope
  import opened Reconcile
  import opened Journal

  datatype Phase =
    | Resolving(job: Row)
    | Routing(job: Row, deps: Dependencies)
    | Parsing(job: Row, deps: Dependencies)
    | Preparing(job: Row, deps: Dependencies, intent: PaymentIntent)
    // The three phases below hold the signer's lock.
    | ReadingPending(job: Row, deps: Dependencies, intent: PaymentIntent)
    | ReadingHighest(job: Row, deps: Dependencies, intent: PaymentIntent, pendingNonce: nat)
    | Reserving(job: Row, deps: Dependencies, intent: PaymentIntent, pendingNonce: nat, nonce: nat)
    | Building(job: Row, deps: Dependencies, intent: PaymentIntent, nonce: nat)
    | AwaitingSignature(job: Row, deps: Dependencies, intent: PaymentIntent, tx: UnsignedTx)
    | Recording(job: Row, deps: Dependencies, intent: PaymentIntent, raw: RawTx)
    | Broadcasting(job: Row, deps: Dependencies, raw: RawTx, provided: Option<PaymentIntent>)
    | MarkingBroadcast(job: Row, deps: Dependencies, raw: RawTx, provided: Option<PaymentIntent>)
    | MarkingError(job: Row)
    | Reconciling(job: Row, deps: Dependencies, hash: TxHash, note: Option<string>, intent: PaymentIntent)
    // `retry` is what the surrounding catch finishes with.
    | Finishing(job: Row, result: FinishResult, retry: Option<FinishResult>)

  datatype Answer =
    | Crashed
    | ResolverFailed(detail: string)
    | ResolverGave(deps: Dependencies)
    | ReceiptProbed(present: bool)
    | ModelSaid(model: Option<ModelAnswer>)
    | Committed
    | Unacknowledged
    | Rejected
    | PendingNonce(nonce: nat)
    | ChainAnswered(seen: ChainReads)
    | SignerSigned(signature: nat)
    | BroadcastAccepted
    | NonceTooLow
    | BroadcastAmbiguous
    | ReceiptArrived(receipt: Receipt, stored: StoredRequest)
    | NoReceipt

  /** A worker inside a tick. `view` is its row as its own last committed statement left it. */
  datatype Busy = Busy(phase: Phase, view: Row)

  /** Tables after a step, the worker's next phase if the tick goes on, and what left the process. */
  datatype Effect = Effect(tables: Tables, next: Option<Busy>, sent: Option<RawTx>, asked: Option<UnsignedTx>)

  const RECONCILIATION_PENDING := "RECONCILIATION_PENDING"
  const AMBIGUOUS_SIGNING_STATE := "AMBIGUOUS_SIGNING_STATE"
  const BROADCAST_AMBIGUOUS := "BROADCAST_AMBIGUOUS"
  const NONCE_TOO_LOW := "NONCE_TOO_LOW"

  function IntentHashFor(context: Context, job: Row, recipient: string, amount: nat): IntentHash {
    IntentHashOf(ARC_CHAIN_ID, Lower(context.account), job.mandateId, Lower(job.requestId), Lower(recipient), amount)
  }

  /** The recorded intent, its amount printed again; the printer throws on what is not an amount. */
  function StoredIntent(job: Row): Result<Option<PaymentIntent>, AmountError> {
    if job.parsedRecipient.None? || job.parsedRecipient.value == "" || job.parsedAmount.None? then Ok(None)
    else match FormatUsdc(job.parsedAmount.value)
      case Ok(text) => Ok(Some(PaymentIntent(job.parsedRecipient.value, text)))
      case Err(e) => Err(e)
  }

  function Plain(state: State, errorCode: string): FinishResult {
    FinishResult(state, None, None, None, Some(errorCode))
  }

  predicate Contains(s: string, part: string) {
    part <= s || (s != "" && Contains(s[1..], part))
  }

  function ResolverErrorCode(detail: string): string {
    if Contains(detail, "policy migration") then "AGENT_POLICY_MIGRATION_REQUIRED"
    else if Contains(detail, "different signer backend")
      || Contains(detail, "requires aws_kms") then "SIGNER_PROVIDER_MISMATCH"
    else if Contains(detail, "context not found") then "SIGNER_CONTEXT_NOT_FOUND"
    else "SIGNER_CONTEXT_UNAVAILABLE"
  }

  function ClarificationText(why: Clarification): string {
    match why
    case BadLength => "Enter one payment instruction under 2,000 characters."
    case NoMatch => "Specify one amount and approved recipient."
    case BadAmount => "Use a positive USDC amount with at most six decimals."
    case ChooseRecipient => "Choose one approved recipient by its exact label or address."
    case Unsafe => "The instruction could not be parsed safely."
    case Incomplete => "Confirm the approved recipient and amount."
    case ChooseApproved => "Choose an approved recipient."
    case AskedByModel(message) => message
  }

  function OrPending(note: Option<string>): string {
    if note.Some? then note.value else RECONCILIATION_PENDING
  }

  /** Entry of `reconcileRaw`; no phase means the tick throws. */
  function StartReconcile(job: Row, deps: Dependencies, hash: TxHash, note: Option<string>,
                          provided: Option<PaymentIntent>): Option<Phase> {
    if provided.Some? then Some(Reconciling(job, deps, hash, note, provided.value))
    else match StoredIntent(job)
      case Err(_) => None
      case Ok(None) => Some(Finishing(job, Plain(Unknown, OrPending(note)), None))
      case Ok(Some(intent)) => Some(Reconciling(job, deps, hash, note, intent))
  }

  /** The dispatch of `runRaw` on the claimed row. */
  function Route(job: Row, deps: Dependencies, receiptPresent: bool): Option<Phase> {
    if job.state == Unknown && job.txHash.Some?
      && receiptPresent then StartReconcile(job, deps, job.txHash.value, None, None)
    else if job.signedRawTransaction.Some? then Some(Broadcasting(job, deps, job.signedRawTransaction.value, None))
    else if job.txHash.Some? then StartReconcile(job, deps, job.txHash.value, None, None)
    else if job.state == SigningPrepared then
      match StoredIntent(job)
      case Err(_) => None
      case Ok(stored) =>
        if stored.None? || job.txNonce.None? then Some(Finishing(job, Plain(Unknown, AMBIGUOUS_SIGNING_STATE), None))
        else Some(Building(job, deps, stored.value, job.txNonce.value))
    else if job.state != Queued then Some(Finishing(job, Plain(Unknown, AMBIGUOUS_SIGNING_STATE), None))
    else Some(Parsing(job, deps))
  }

  function Parsed(job: Row, deps: Dependencies, model: Option<ModelAnswer>): Phase {
    match ParseInstruction(job.text, deps.recipients, model, deps.allowAny, deps.checksum)
    case Clarify(why) => Finishing(job, Plain(NeedsClarification, ClarificationText(why)), None)
    case Payment(intent) => Preparing(job, deps, intent)
  }

  function Built(job: Row, deps: Dependencies, intent: PaymentIntent, nonce: nat, seen: ChainReads): Option<Phase> {
    match ParseUsdc(intent.amountUsdc)
    case Err(_) => None
    case Ok(amount) => match Build(job.mandateId, job.requestId, deps, intent, amount, nonce, seen)
      case Blocked(code) => Some(Finishing(job, FinishResult(SignerBlocked, None, Some(amount), None, Some(code)),
                                           None))
      case ToSign(tx) => Some(AwaitingSignature(job, deps, intent, tx))
  }

  function StateOf(outcome: Outcome): State {
    match outcome
    case DidExecute => Executed
    case DidRefuse => Refused
    case DidRevert => TechnicalFailure
  }

  function Reconciled(job: Row, deps: Dependencies, note: Option<string>, intent: PaymentIntent, receipt: Receipt,
                      stored: StoredRequest): Phase {
    var unresolved := Plain(Unknown, OrPending(note));
    match ReconcilePayment(deps.context, job.requestId, job.mandateId, intent, receipt, stored)
    case Err(_) => Finishing(job, unresolved, None)
    case Ok(result) =>
      var code := if result.state.DidRevert? then Some(OrPending(note)) else None;
      Finishing(job, FinishResult(StateOf(result.state), result.rule, Some(result.attemptedUnits), result.headroomUnits,
                                  code), Some(unresolved))
  }

  // -- One step ----------------------------------------------------------------------------------

  predicate HoldsLock(phase: Phase) {
    phase.ReadingPending? || phase.ReadingHighest? || phase.Reserving?
  }

  /** Which answers can come back in which phase. */
  predicate Expects(phase: Phase, answer: Answer) {
    match answer
    case Crashed => true
    case ResolverFailed(_) => phase.Resolving?
    case ResolverGave(_) => phase.Resolving?
    case ReceiptProbed(_) => phase.Routing?
    case ModelSaid(_) => phase.Parsing?
    case Committed => phase.Preparing? || phase.ReadingHighest? || phase.Reserving? || phase.Recording?
      || phase.MarkingBroadcast? || phase.MarkingError? || phase.Finishing?
    case Unacknowledged => Writes(phase)
    case Rejected => Writes(phase)
    case PendingNonce(_) => phase.ReadingPending?
    case ChainAnswered(_) => phase.Building?
    case SignerSigned(_) => phase.AwaitingSignature?
    case BroadcastAccepted => phase.Broadcasting?
    case NonceTooLow => phase.Broadcasting?
    case BroadcastAmbiguous => phase.Broadcasting?
    case ReceiptArrived(_, _) => phase.Reconciling?
    case NoReceipt => phase.Reconciling?
  }

  /** The journal statement a phase is about to run; `None` when its guard fails. */
  function Statement(t: Tables, worker: WorkerId, phase: Phase): Option<Tables> {
    match phase
    case Reserving(job, deps, intent, _, nonce) =>
      if ParseUsdc(intent.amountUsdc).Err? then None
      else
        var amount := ParseUsdc(intent.amountUsdc).value;
        AfterReserve(t, job.id, worker, intent.recipient, amount, nonce,
                     IntentHashFor(deps.context, job, intent.recipient, amount))
    case Recording(job, deps, _, raw) => AfterSigned(t, job.id, worker, KeccakOf(raw), raw, deps.kms.keyArn)
    case MarkingBroadcast(job, _, _, _) => AfterBroadcast(t, job.id, worker)
    case MarkingError(job) => Some(AfterBroadcastError(t, job.id, worker, BROADCAST_AMBIGUOUS))
    case Finishing(job, result, _) => AfterFinish(t, job.id, worker, result)
    case _ => Some(t)
  }

  /** Where the tick goes once that statement has committed. */
  function AfterStatement(phase: Phase): Option<Phase> {
    match phase
    case Reserving(job, deps, intent, _, nonce) => Some(Building(job, deps, intent, nonce))
    case Recording(job, deps, intent, raw) => Some(Broadcasting(job, deps, raw, Some(intent)))
    case MarkingBroadcast(job, deps, raw, provided) => StartReconcile(job, deps, KeccakOf(raw), None, provided)
    case MarkingError(job) => Some(Finishing(job, Plain(Unknown, BROADCAST_AMBIGUOUS), None))
    case _ => None
  }

  /** Where it goes when the statement fails or is not acknowledged: only a reconcile catches that. */
  function AfterError(phase: Phase): Option<Phase> {
    match phase
    case Finishing(job, _, Some(retry)) => Some(Finishing(job, retry, None))
    case _ => None
  }

  predicate Writes(phase: Phase) {
    phase.Reserving? || phase.Recording? || phase.MarkingBroadcast? || phase.MarkingError? || phase.Finishing?
  }

  /** The phase after an answer that involves no journal write. */
  function Think(t: Tables, links: Links, worker: WorkerId, phase: Phase, answer: Answer): Option<Phase>
    requires Expects(phase, answer) && !answer.Crashed? && !Writes(phase)
  {
    match phase
    case Resolving(job) =>
      Some(if answer.ResolverFailed? then Finishing(job, Plain(SignerBlocked, ResolverErrorCode(answer.detail)), None)
           else Routing(job, answer.deps))
    case Routing(job, deps) => Route(job, deps, answer.present)
    case Parsing(job, deps) => Some(Parsed(job, deps, answer.model))
    case Preparing(job, deps, intent) =>
      if ParseUsdc(intent.amountUsdc).Err? then None
      else (match ReadForSigning(t, job.id, worker,
                                 IntentHashFor(deps.context, job, intent.recipient, ParseUsdc(intent.amountUsdc).value))
            case Fresh => Some(ReadingPending(job, deps, intent))
            case Reuse(nonce) => Some(Building(job, deps, intent, nonce))
            case _ => None)
    case ReadingPending(job, deps, intent) => Some(ReadingHighest(job, deps, intent, answer.nonce))
    case ReadingHighest(job, deps, intent, pendingNonce) =>
      Some(Reserving(job, deps, intent, pendingNonce,
                     NextNonce(t.rows, links, Lower(deps.signer), job.id, pendingNonce)))
    case Building(job, deps, intent, nonce) => Built(job, deps, intent, nonce, answer.seen)
    case AwaitingSignature(job, deps, intent, tx) => Some(Recording(job, deps, intent, RawTx(tx, answer.signature)))
    case Broadcasting(job, deps, raw, provided) =>
      if answer.BroadcastAccepted? then Some(MarkingBroadcast(job, deps, raw, provided))
      else if answer.NonceTooLow? then StartReconcile(job, deps, KeccakOf(raw), Some(NONCE_TOO_LOW), provided)
      else Some(MarkingError(job))
    case Reconciling(job, deps, hash, note, intent) =>
      Some(if answer.NoReceipt? then Finishing(job, Plain(Unknown, OrPending(note)), None)
           else Reconciled(job, deps, note, intent, answer.receipt, answer.stored))
  }

  function WithPhase(view: Row, phase: Option<Phase>): Option<Busy> {
    match phase
    case Some(p) => Some(Busy(p, view))
    case None => None
  }

  /** The row after a statement of its lease holder; a write that found no row leaves the view. */
  function Seen(t: Tables, after: Tables, worker: WorkerId, view: Row): Row {
    if Owns(t, view.id, worker) && view.id in after.rows then after.rows[view.id] else view
  }

  function Sent(phase: Phase): Option<RawTx> {
    match phase
    case Broadcasting(_, _, raw, _) => Some(raw)
    case _ => None
  }

  function Asked(phase: Phase): Option<UnsignedTx> {
    match phase
    case AwaitingSignature(_, _, _, tx) => Some(tx)
    case _ => None
  }

  /**
   * One step of a tick. What the process may have let out is counted even when it crashes. A rejected
   * statement has failed without committing, whatever its guard; an unacknowledged one has committed
   * although the worker sees an error.
   */
  function Advance(t: Tables, links: Links, worker: WorkerId, b: Busy, answer: Answer): Effect
    requires Expects(b.phase, answer)
  {
    if answer.Crashed? then Effect(t, None, Sent(b.phase), Asked(b.phase))
    else if answer.Rejected? then Effect(t, WithPhase(b.view, AfterError(b.phase)), None, None)
    else if Writes(b.phase) then
      match Statement(t, worker, b.phase)
      case None => Effect(t, WithPhase(b.view, AfterError(b.phase)), None, None)
      case Some(after) =>
        if answer.Unacknowledged? then Effect(after, WithPhase(Seen(t, after, worker, b.view), AfterError(b.phase)),
                                              None, None)
        else Effect(after, WithPhase(Seen(t, after, worker, b.view), AfterStatement(b.phase)), None, None)
    else
      Effect(t, WithPhase(b.view, Think(t, links, worker, b.phase, answer)), Sent(b.phase), Asked(b.phase))
  }

  // -- The worker object -------------------------------------------------------------------------

  /** A worker process on a journal: it claims when idle, and otherwise runs one step per answer. */
  class PaymentWorker {
    const workerId: WorkerId
    const journal: PgJournal
    var busy: Option<Busy>

    constructor (workerId: WorkerId, journal: PgJournal)
      ensures this.workerId == workerId && this.journal == journal && busy == None
    {
      this.workerId := workerId;
      this.journal := journal;
      busy := None;
    }

    /** The start of `tick`. */
    method Claim(now: nat, locked: set<RowId>) returns (found: bool)
      requires busy.None?
      modifies this, journal
      ensures !found ==> busy.None? && journal.Contents() == old(journal.Contents())
                         && Candidates(journal.rows, journal.links, journal.signerProvider, now, locked) == {}
      ensures found ==>
                exists id :: IsNext(old(journal.rows), journal.links, journal.signerProvider, now, locked, id)
                             && var row := Leased(old(journal.rows)[id], workerId, now);
                                busy == Some(Busy(Resolving(row), row))
                                && journal.Contents() == old(journal.Contents()).(rows := old(journal.rows)[id := row])
    {
      var job := journal.ClaimNext(workerId, now, locked);
      found := job.Some?;
      if found {
        busy := Some(Busy(Resolving(job.value), job.value));
      }
    }

    /** The rest of `tick`, one await at a time. */
    method Step(answer: Answer) returns (ghost effect: Effect)
      requires busy.Some? && Expects(busy.value.phase, answer)
      modifies this, journal
      ensures effect == Advance(old(journal.Contents()), journal.links, workerId, old(busy.value), answer)
      ensures journal.Contents() == effect.tables && busy == effect.next
    {
      var Busy(phase, view) := busy.value;
      effect := Advance(journal.Contents(), journal.links, workerId, busy.value, answer);
      if answer.Crashed? {
        busy := None;
      } else if answer.Rejected? {
        busy := WithPhase(view, AfterError(phase));
      } else if Writes(phase) {
        var owned := view.id in journal.rows && journal.rows[view.id].id == view.id
            && journal.rows[view.id].leaseOwner == Some(workerId);
        var kept := RunStatement(phase);
        if !kept {
          busy := WithPhase(view, AfterError(phase));
        } else {
          var row := if owned && view.id in journal.rows then journal.rows[view.id] else view;
          busy := WithPhase(row, if answer.Unacknowledged? then AfterError(phase) else AfterStatement(phase));
        }
      } else {
        busy := WithPhase(view, Think(journal.Contents(), journal.links, workerId, phase, answer));
      }
    }

    /** The journal call of a phase that writes. */
    method RunStatement(phase: Phase) returns (kept: bool)
      requires Writes(phase)
      modifies journal
      ensures kept == Statement(old(journal.Contents()), workerId, phase).Some?
      ensures journal.Contents() == if kept then Statement(old(journal.Contents()), workerId, phase).value
                                    else old(journal.Contents())
    {
      match phase {
        case Reserving(job, deps, intent, _, nonce) =>
          var amount := ParseUsdc(intent.amountUsdc);
          if amount.Err? {
            return false;
          }
          kept := journal.Reserve(job.id, workerId, intent.recipient, amount.value, nonce,
                                  IntentHashFor(deps.context, job, intent.recipient, amount.value));
        case Recording(job, deps, _, raw) =>
          kept := journal.RecordSigned(job.id, workerId, KeccakOf(raw), raw, deps.kms.keyArn);
        case MarkingBroadcast(job, _, _, _) =>
          kept := journal.RecordBroadcast(job.id, workerId);
        case MarkingError(job) =>
          journal.RecordBroadcastError(job.id, workerId, BROADCAST_AMBIGUOUS);
          kept := true;
        case Finishing(job, result, _) =>
          kept := journal.Finish(job.id, workerId, result);
      }
    }
  }
}
