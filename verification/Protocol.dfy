/**
 * The fleet as a transition system: any number of workers on one journal and one chain. Each event is
 * one committed statement, one answer to one worker, or a move of the clock or of the chain.
 */
module Protocol {
  import opened Prelude
  import opened Amount
  import opened Instruction
  import opened Payments
  import opened Envelope
  import opened Reconcile
  import opened Journal
  import opened Worker

  /** What the account contract records, by account, mandate and request; it never forgets. */
  datatype RecordKey = RecordKey(account: string, mandateId: nat, requestId: string)

  datatype Chain = Chain(receipts: map<TxHash, Receipt>, records: map<RecordKey, StoredRequest>)

  const NO_RECORD := StoredRequest("", "", 0, 0, 0, 0)

  function RecordAt(chain: Chain, key: RecordKey): StoredRequest {
    if key in chain.records then chain.records[key] else NO_RECORD
  }

  function KeyOf(row: Row): RecordKey {
    RecordKey(Lower(row.account), row.mandateId, Lower(row.requestId))
  }

  datatype World = World(
    tables: Tables, now: nat, workers: map<WorkerId, Busy>, chain: Chain,
    // Every byte string that may have reached the network and every transaction handed to a signer.
    sent: set<(RowId, RawTx)>, asked: set<(RowId, UnsignedTx)>)

  datatype Event =
    | Enqueues(submission: Submission, account: string, id: RowId)
    | Claims(worker: WorkerId, id: RowId, locked: set<RowId>)
    | Acts(worker: WorkerId, answer: Answer)
    | TimePasses(seconds: nat)
    | Mines(hash: TxHash, receipt: Receipt)
    | Records(key: RecordKey, stored: StoredRequest)

  const INITIAL := World(Tables(map[], {}), 0, map[], Chain(map[], map[]), {}, {})

  /** The resolver reads the context from the row's own link, in whatever letter case. */
  ghost predicate Resolves(links: Links, job: Row, deps: Dependencies) {
    && job.account in links && IsChecksum(deps.checksum)
    && (forall i :: 0 <= i < |deps.recipients| ==> deps.recipients[i].address != "")
    && SameText(deps.context.account, job.account)
    && SameText(deps.context.agentAddress, links[job.account].agentAddress)
    && SameText(deps.signer, links[job.account].agentAddress)
  }

  /** Chain answers come from the chain, contexts from the links; every other answer is free. */
  ghost predicate Answers(links: Links, w: World, phase: Phase, answer: Answer) {
    && Expects(phase, answer)
    && (answer.ResolverGave? ==> Resolves(links, phase.job, answer.deps))
    && (answer.ReceiptArrived? ==>
          && phase.hash in w.chain.receipts && answer.receipt == w.chain.receipts[phase.hash]
          && answer.stored == RecordAt(w.chain, KeyOf(phase.job)))
  }

  /** The lock `prepareSigning` takes, by lower-case signer. */
  ghost predicate LockFree(w: World, worker: WorkerId, signer: string) {
    forall other :: other in w.workers && other != worker && HoldsLock(w.workers[other].phase) ==>
                      Lower(w.workers[other].phase.deps.signer) != signer
  }

  ghost predicate Enabled(links: Links, provider: Option<string>, w: World, e: Event) {
    match e
    case Enqueues(s, account, id) => id !in w.tables.rows && IsLinkOf(links, s, Some(account))
      && Inserts(w.tables, s, Some(account))
    case Claims(worker, id, locked) => worker !in w.workers && IsNext(w.tables.rows, links, provider, w.now, locked, id)
    case Acts(worker, answer) =>
      && worker in w.workers
      && var phase := w.workers[worker].phase;
         Answers(links, w, phase, answer)
         && (phase.Preparing? && !answer.Crashed? ==> LockFree(w, worker, Lower(phase.deps.signer)))
    case TimePasses(_) => true
    case Mines(hash, _) => hash !in w.chain.receipts
    case Records(key, _) => key !in w.chain.records
  }

  function SetWorker(workers: map<WorkerId, Busy>, worker: WorkerId, next: Option<Busy>): map<WorkerId, Busy> {
    match next
    case Some(b) => workers[worker := b]
    case None => workers - {worker}
  }

  function Tagged<T(==)>(id: RowId, item: Option<T>): set<(RowId, T)> {
    match item
    case Some(x) => {(id, x)}
    case None => {}
  }

  /** A submission that inserts nothing changes nothing, so it is no event. */
  function Apply(links: Links, provider: Option<string>, w: World, e: Event): World
    requires Enabled(links, provider, w, e)
  {
    match e
    case Enqueues(s, account, id) => w.(tables := WithRow(w.tables, NewRow(id, s, account, w.now)))
    case Claims(worker, id, _) =>
      var row := Leased(w.tables.rows[id], worker, w.now);
      w.(tables := w.tables.(rows := w.tables.rows[id := row]),
         workers := w.workers[worker := Busy(Resolving(row), row)])
    case Acts(worker, answer) =>
      var b := w.workers[worker];
      var effect := Advance(w.tables, links, worker, b, answer);
      w.(tables := effect.tables, workers := SetWorker(w.workers, worker, effect.next),
         sent := w.sent + Tagged(b.phase.job.id, effect.sent), asked := w.asked + Tagged(b.phase.job.id, effect.asked))
    case TimePasses(seconds) => w.(now := w.now + seconds)
    case Mines(hash, receipt) => w.(chain := w.chain.(receipts := w.chain.receipts[hash := receipt]))
    case Records(key, stored) => w.(chain := w.chain.(records := w.chain.records[key := stored]))
  }

  /** The worlds of a run, from the empty journal. */
  ghost predicate IsRun(links: Links, provider: Option<string>, run: seq<World>, events: seq<Event>) {
    && |run| == |events| + 1 && run[0] == INITIAL
    && forall i :: 0 <= i < |events| ==>
         Enabled(links, provider, run[i], events[i]) && run[i + 1] == Apply(links, provider, run[i], events[i])
  }

  // -- How a row may change ----------------------------------------------------------------------

  predicate Terminal(state: State) {
    state in {NeedsClarification, Executed, Refused, SignerBlocked, TechnicalFailure}
  }

  function Rank(state: State): nat {
    match state
    case Queued => 0
    case Signing => 1
    case SigningPrepared => 1
    case Signed => 2
    case Submitted => 3
    case Pending => 3
    case Unknown => 4
    case _ => 5
  }

  predicate SameRequest(a: Row, b: Row) {
    && a.id == b.id && a.userSubject == b.userSubject && a.account == b.account && a.mandateId == b.mandateId
    && a.requestId == b.requestId && a.inputHash == b.inputHash && a.text == b.text && a.createdAt == b.createdAt
  }

  predicate Kept<T(==)>(a: Option<T>, b: Option<T>) {
    a.Some? ==> b == a
  }

  /** `b` is a later version of `a`: written-once fields stay, the rank never drops, an end is an end. */
  predicate Later(a: Row, b: Row) {
    && SameRequest(a, b)
    && Rank(a.state) <= Rank(b.state)
    && Kept(a.txNonce, b.txNonce) && Kept(a.parsedRecipient, b.parsedRecipient) && Kept(a.parsedAmount, b.parsedAmount)
    && Kept(a.unsignedIntentHash, b.unsignedIntentHash) && Kept(a.signedRawTransaction, b.signedRawTransaction)
       && Kept(a.txHash, b.txHash)
    && (Terminal(a.state) ==> a == b)
  }

  lemma LaterIsTransitive(a: Row, b: Row, c: Row)
    requires Later(a, b) && Later(b, c)
    ensures Later(a, c)
  {
  }

  // -- What a row looks like in each state -------------------------------------------------------

  predicate Blank(row: Row) {
    && row.txNonce.None? && row.parsedRecipient.None? && row.parsedAmount.None? && row.unsignedIntentHash.None?
    && row.signedRawTransaction.None? && row.txHash.None?
  }

  /** The recorded intent, under the hash of exactly this payment. */
  predicate HasIntent(row: Row) {
    && row.txNonce.Some?
    && row.parsedRecipient.Some? && row.parsedRecipient.value != ""
    && row.parsedAmount.Some? && 0 < row.parsedAmount.value <= MAX_UINT256
    && row.unsignedIntentHash == Some(IntentHashOf(5_042_002, Lower(row.account), row.mandateId, Lower(row.requestId),
                                                   Lower(row.parsedRecipient.value), row.parsedAmount.value))
  }

  /** What is under way attempts the recorded amount. */
  predicate AttemptsIt(row: Row) {
    row.attemptedUnits == row.parsedAmount
  }

  predicate Prepared(row: Row) {
    HasIntent(row) && row.signedRawTransaction.None? && row.txHash.None?
  }

  /** The transaction pays what the row recorded, under the nonce it reserved. */
  predicate PaysRow(tx: UnsignedTx, row: Row) {
    && HasIntent(row) && tx.nonce == row.txNonce.value && tx.value == 0 && SameText(tx.to, row.account)
    && tx.data == Pay(row.mandateId, row.requestId, row.parsedRecipient.value, row.parsedAmount.value)
  }

  predicate HasBytes(row: Row) {
    && HasIntent(row) && row.signedRawTransaction.Some? && PaysRow(row.signedRawTransaction.value.body, row)
    && row.txHash == Some(KeccakOf(row.signedRawTransaction.value))
  }

  /** The chain shows this outcome for the row's own hash, account, agent and recorded payment. */
  predicate Shown(links: Links, chain: Chain, row: Row, outcome: Outcome) {
    && row.account in links && HasIntent(row) && row.txHash.Some? && row.txHash.value in chain.receipts
    && Proves(chain.receipts[row.txHash.value], RecordAt(chain, KeyOf(row)), row.account,
              links[row.account].agentAddress,
              row.requestId, row.mandateId, row.parsedRecipient.value, row.parsedAmount.value, outcome)
  }

  predicate IsBuildCode(code: Option<string>) {
    code in {Some(MANDATE_NOT_ACTIVE), Some(MANDATE_AGENT_MISMATCH), Some(AGENT_GAS_INSUFFICIENT),
             Some(SIGNER_ENVELOPE_REJECTED)}
  }

  predicate GoodState(links: Links, chain: Chain, row: Row) {
    match row.state
    case Queued => Blank(row)
    case NeedsClarification => Blank(row)
    case SigningPrepared => Prepared(row) && AttemptsIt(row)
    case Signed => HasBytes(row) && AttemptsIt(row)
    case Submitted => HasBytes(row) && AttemptsIt(row)
    case Unknown => HasBytes(row)
    case TechnicalFailure => HasBytes(row) && Shown(links, chain, row, DidRevert)
    case Executed => HasBytes(row) && Shown(links, chain, row, DidExecute)
    case Refused => HasBytes(row) && Shown(links, chain, row, DidRefuse)
    case SignerBlocked => (Blank(row) || Prepared(row) || HasBytes(row))
      && (IsBuildCode(row.errorCode) ==> Prepared(row))
    case Signing => false
    case Pending => false
  }

  predicate GoodRow(links: Links, chain: Chain, row: Row) {
    && row.account in links && row.providerOperationId.None?
    && (Terminal(row.state) ==> row.leaseOwner.None?)
    && GoodState(links, chain, row)
  }

  // -- What a worker knows in each phase ---------------------------------------------------------

  predicate GoodIntent(intent: PaymentIntent) {
    intent.recipient != "" && ParseUsdc(intent.amountUsdc).Ok?
  }

  predicate IntentOf(intent: PaymentIntent, row: Row) {
    && HasIntent(row) && intent.recipient == row.parsedRecipient.value
    && ParseUsdc(intent.amountUsdc) == Ok(row.parsedAmount.value)
  }

  predicate Live(row: Row) {
    row.state in {Signed, Submitted, Unknown} && HasBytes(row)
  }

  /** What a failed resolver makes a worker finish its row with. */
  predicate IsResolverBlock(result: FinishResult) {
    result.state == SignerBlocked && !IsBuildCode(result.errorCode)
  }

  predicate GoodResult(links: Links, chain: Chain, view: Row, result: FinishResult) {
    match result.state
    case NeedsClarification => view.state == Queued
    case SignerBlocked => !Terminal(view.state) && (IsBuildCode(result.errorCode) ==> view.state == SigningPrepared)
    case Unknown => Live(view)
    case TechnicalFailure => Live(view) && Shown(links, chain, view, DidRevert)
    case Executed => Live(view) && Shown(links, chain, view, DidExecute)
    case Refused => Live(view) && Shown(links, chain, view, DidRefuse)
    case _ => false
  }

  ghost predicate GoodPhase(links: Links, chain: Chain, phase: Phase, view: Row) {
    && SameRequest(phase.job, view)
    && (!phase.Finishing? ==> view.leaseOwner.Some?)
    && match phase
       case Resolving(job) => view == job
       case Routing(job, deps) => view == job && Resolves(links, job, deps)
       case Parsing(job, deps) => view == job && job.state == Queued && Resolves(links, job, deps)
       case Preparing(job, deps, intent) =>
         view == job && job.state == Queued && Resolves(links, job, deps) && GoodIntent(intent)
       case ReadingPending(job, deps, intent) =>
         view == job && job.state == Queued && Resolves(links, job, deps) && GoodIntent(intent)
       case ReadingHighest(job, deps, intent, _) =>
         view == job && job.state == Queued && Resolves(links, job, deps) && GoodIntent(intent)
       case Reserving(job, deps, intent, pendingNonce, nonce) =>
         view == job && job.state == Queued && Resolves(links, job, deps) && GoodIntent(intent) && nonce >= pendingNonce
       case Building(job, deps, intent, nonce) =>
         view.state == SigningPrepared && Resolves(links, job, deps) && IntentOf(intent, view)
         && view.txNonce == Some(nonce)
       case AwaitingSignature(job, deps, intent, tx) =>
         view.state == SigningPrepared && Resolves(links, job, deps) && IntentOf(intent, view) && PaysRow(tx, view)
       case Recording(job, deps, intent, raw) =>
         view.state == SigningPrepared && Resolves(links, job, deps) && IntentOf(intent, view)
         && PaysRow(raw.body, view)
       case Broadcasting(job, deps, raw, provided) =>
         Live(view) && Resolves(links, job, deps) && view.signedRawTransaction == Some(raw)
         && GoodProvided(provided, job, view)
       case MarkingBroadcast(job, deps, raw, provided) =>
         Live(view) && Resolves(links, job, deps) && view.signedRawTransaction == Some(raw)
         && GoodProvided(provided, job, view)
       case MarkingError(job) => Live(view)
       case Reconciling(job, deps, hash, note, intent) =>
         Live(view) && Resolves(links, job, deps) && view.txHash == Some(hash) && IntentOf(intent, view) && IsNote(note)
       case Finishing(job, result, retry) =>
         // Once its row is finished the worker holds no lease, and what it still wants to write is dropped.
         view.leaseOwner.Some? ==>
           && GoodResult(links, chain, view, result)
           && (retry.Some? ==> retry.value.state == Unknown && Live(view))
           && (IsResolverBlock(result) ==> view.state == job.state)
  }

  /** All a reconciliation may have been told of its broadcast. */
  predicate IsNote(note: Option<string>) {
    note == None || note == Some("NONCE_TOO_LOW")
  }

  /** The intent comes with the phase, or is still in the claimed row. */
  predicate GoodProvided(provided: Option<PaymentIntent>, job: Row, view: Row) {
    if provided.Some? then IntentOf(provided.value, view)
    else job.parsedRecipient == view.parsedRecipient && job.parsedAmount == view.parsedAmount
  }

  // -- The invariant -----------------------------------------------------------------------------

  ghost predicate RowsGood(links: Links, w: World) {
    forall id :: id in w.tables.rows ==> w.tables.rows[id].id == id && GoodRow(links, w.chain, w.tables.rows[id])
  }

  /** A worker's view is an earlier version of its row, and is the row while it holds the lease. */
  ghost predicate Fenced(links: Links, w: World, worker: WorkerId)
    requires worker in w.workers
  {
    var b := w.workers[worker];
    && b.view.id in w.tables.rows
    && GoodPhase(links, w.chain, b.phase, b.view)
    && GoodRow(links, w.chain, b.view)
    && Later(b.view, w.tables.rows[b.view.id])
    && (w.tables.rows[b.view.id].leaseOwner == Some(worker) ==> w.tables.rows[b.view.id] == b.view)
  }

  ghost predicate WorkersFenced(links: Links, w: World) {
    forall worker :: worker in w.workers ==> Fenced(links, w, worker)
  }

  /** At most one worker per signer is between the lock and the reserving statement, on a row out of flight. */
  ghost predicate LocksExclusive(w: World) {
    && (forall a, b ::
          (a in w.workers && b in w.workers && a != b
           && HoldsLock(w.workers[a].phase) && HoldsLock(w.workers[b].phase)) ==>
          Lower(w.workers[a].phase.deps.signer) != Lower(w.workers[b].phase.deps.signer))
    && (forall a :: a in w.workers && HoldsLock(w.workers[a].phase) && w.workers[a].view.id in w.tables.rows ==>
          !InFlight(w.tables.rows[w.workers[a].view.id].state))
  }

  /** The nonce about to be reserved is above every nonce its signer has in flight. */
  ghost predicate NonceAbove(links: Links, rows: Rows, signer: string, nonce: nat) {
    forall id :: id in rows && HoldsNonce(rows[id], links, signer) ==> rows[id].txNonce.value < nonce
  }

  ghost predicate ReservationsAbove(links: Links, w: World) {
    forall a :: a in w.workers && w.workers[a].phase.Reserving? ==>
      NonceAbove(links, w.tables.rows, Lower(w.workers[a].phase.deps.signer), w.workers[a].phase.nonce)
  }

  ghost predicate NoncesDistinct(links: Links, rows: Rows) {
    forall i, j :: i in rows && j in rows && i != j && rows[i].account in links && rows[j].account in links
                   && HoldsNonce(rows[i], links, SignerOf(rows[i], links))
                      && HoldsNonce(rows[j], links, SignerOf(rows[j], links))
                   && SignerOf(rows[i], links) == SignerOf(rows[j], links) ==>
                     rows[i].txNonce != rows[j].txNonce
  }

  /** What left the process is what the row holds. */
  ghost predicate HistoryKept(w: World) {
    && (forall s :: s in w.sent ==> s.0 in w.tables.rows && w.tables.rows[s.0].signedRawTransaction == Some(s.1))
    && (forall s :: s in w.asked ==> s.0 in w.tables.rows && PaysRow(s.1, w.tables.rows[s.0]))
  }

  ghost predicate TransactionsKept(w: World) {
    forall id, hash :: (id, hash) in w.tables.transactions <==>
      id in w.tables.rows && w.tables.rows[id].txHash == Some(hash)
  }

  ghost predicate Inv(links: Links, w: World) {
    && RowsGood(links, w) && WorkersFenced(links, w) && LocksExclusive(w) && ReservationsAbove(links, w)
    && NoncesDistinct(links, w.tables.rows) && HistoryKept(w) && TransactionsKept(w)
  }

  lemma InitialInv(links: Links)
    ensures Inv(links, INITIAL)
  {
  }
}
