/**
 * From the chain to the row: what the chain shows of a payment is what its row ends with, and what it
 * does not show leaves the row unknown.
 */
module ProtocolReports {
  import opened Prelude
  import opened Amount
  import opened Instruction
  import opened Payments
  import opened Reconcile
  import opened Journal
  import opened Worker
  import opened Protocol
  import opened ProtocolMoves
  import opened ProtocolInvariant
  import opened ProtocolTheorems

  // -- What a row ends with ----------------------------------------------------------------------

  /** What the chain shows, of the row's own request, mandate, recipient and amount, under its own hash. */
  predicate ChainShows(links: Links, chain: Chain, row: Row, outcome: Outcome) {
    && HasIntent(row) && row.account in links && row.txHash.Some? && row.txHash.value in chain.receipts
    && Proves(chain.receipts[row.txHash.value], RecordAt(chain, KeyOf(row)), row.account,
              links[row.account].agentAddress, row.requestId, row.mandateId, row.parsedRecipient.value,
              row.parsedAmount.value, outcome)
  }

  predicate NothingShown(links: Links, chain: Chain, row: Row) {
    && !ChainShows(links, chain, row, DidExecute) && !ChainShows(links, chain, row, DidRefuse)
    && !ChainShows(links, chain, row, DidRevert)
  }

  /** A finished row: nobody's, with this end, and otherwise as it was. */
  predicate EndsAs(was: Row, row: Row, state: State, errorCode: Option<string>) {
    && row.state == state && row.errorCode == errorCode && row.leaseOwner.None? && row.leaseUntil.None?
    && row == was.(state := row.state, errorCode := row.errorCode, leaseOwner := None, leaseUntil := None,
                   rule := row.rule, attemptedUnits := row.attemptedUnits, headroomUnits := row.headroomUnits)
  }

  /** Unknown: nothing is said of rule, amount or headroom. */
  predicate EndsUnknown(was: Row, row: Row, code: string) {
    EndsAs(was, row, Unknown, Some(code)) && row.rule.None? && row.attemptedUnits.None? && row.headroomUnits.None?
  }

  /** The code of what stays open: that the nonce was used, or that the outcome is pending. */
  predicate IsOpenCode(note: Option<string>, code: string) {
    code == if note.Some? then "NONCE_TOO_LOW" else "RECONCILIATION_PENDING"
  }

  /** The end an outcome gives: the amount attempted, and the rule and headroom the chain shows. */
  predicate EndsWith(was: Row, row: Row, outcome: Outcome, note: Option<string>, receipt: Receipt,
                     stored: StoredRequest) {
    && row.attemptedUnits == was.parsedAmount
    && Reports(row.rule, row.headroomUnits, receipt, stored, was.account, was.requestId, was.mandateId)
    && match outcome
       case DidExecute => EndsAs(was, row, Executed, None)
       case DidRefuse => EndsAs(was, row, Refused, None)
       case DidRevert =>
         row.errorCode.Some? && IsOpenCode(note, row.errorCode.value)
           && EndsAs(was, row, TechnicalFailure, row.errorCode)
  }

  // -- The answer of the chain -------------------------------------------------------------------

  /** Spelling of the account does not matter to what is reported. */
  lemma ReportsIgnoreSpelling(rule: Option<string>, headroom: Option<nat>, receipt: Receipt, stored: StoredRequest,
                              a: string, b: string, requestId: string, mandateId: nat)
    requires SameText(a, b) && Reports(rule, headroom, receipt, stored, a, requestId, mandateId)
    ensures Reports(rule, headroom, receipt, stored, b, requestId, mandateId)
  {
    hide Lower, IsReported;
    forall log: Log | true ensures IsOutcomeFor(log, a, requestId, mandateId) ==
      IsOutcomeFor(log, b, requestId, mandateId) {
    }
    hide IsOutcomeFor;
    assert forall i :: IsFirstOutcome(receipt.logs, i, a, requestId, mandateId) <==>
           IsFirstOutcome(receipt.logs, i, b, requestId, mandateId);
    assert LogIsSilent(receipt.logs, a, requestId, mandateId) <==> LogIsSilent(receipt.logs, b, requestId, mandateId);
  }

  /** The result with which the worker finishes when the chain shows an outcome. */
  predicate IsResultOf(view: Row, outcome: Outcome, note: Option<string>, receipt: Receipt, stored: StoredRequest,
                       result: FinishResult) {
    && result.attemptedUnits == view.parsedAmount
    && Reports(result.rule, result.headroomUnits, receipt, stored, view.account, view.requestId, view.mandateId)
    && match outcome
       case DidExecute => result.state == Executed && result.errorCode.None?
       case DidRefuse => result.state == Refused && result.errorCode.None?
       case DidRevert =>
         result.state == TechnicalFailure && result.errorCode.Some? && IsOpenCode(note, result.errorCode.value)
  }

  /** The result that leaves it open. */
  predicate IsOpenResult(note: Option<string>, result: FinishResult) {
    && result.state == Unknown && result.rule.None? && result.attemptedUnits.None? && result.headroomUnits.None?
    && result.errorCode.Some? && IsOpenCode(note, result.errorCode.value)
  }

  lemma ShownIsReported(links: Links, chain: Chain, t: Tables, worker: WorkerId, b: Busy, outcome: Outcome)
    requires b.phase.Reconciling? && GoodPhase(links, chain, b.phase, b.view) && GoodRow(links, chain, b.view)
    requires ChainShows(links, chain, b.view, outcome)
    ensures var receipt, stored := chain.receipts[b.phase.hash], RecordAt(chain, KeyOf(b.phase.job));
            var next := Think(t, links, worker, b.phase, ReceiptArrived(receipt, stored));
            && next.Some? && next.value.Finishing? && next.value.job == b.phase.job
            && IsResultOf(b.view, outcome, b.phase.note, receipt, stored, next.value.result)
            && next.value.retry.Some? && IsOpenResult(b.phase.note, next.value.retry.value)
  {
    var Busy(Reconciling(job, deps, hash, note, intent), view) := b;
    var receipt, stored := chain.receipts[hash], RecordAt(chain, KeyOf(job));
    assert KeyOf(job) == KeyOf(view) && job.requestId == view.requestId
           && job.mandateId == view.mandateId by { SameKey(job, view); }
    assert SameText(deps.context.account, view.account);
    assert ParseUsdc(intent.amountUsdc) == Ok(view.parsedAmount.value);
    hide ParseUsdc, ReconcilePayment, Proves, PaysRow, KeyOf, Reports, HasIntent, Lower, IsChecksum;
    ProofIgnoresSpelling(receipt, stored, view.account, deps.context.account, links[view.account].agentAddress,
                         deps.context.agentAddress,
                         job.requestId, job.mandateId, intent.recipient, view.parsedAmount.value, outcome);
    ReportedIffProved(deps.context, job.requestId, job.mandateId, intent, receipt, stored, outcome);
    ReportIsExact(deps.context, job.requestId, job.mandateId, intent, receipt, stored);
    var result := ReconcilePayment(deps.context, job.requestId, job.mandateId, intent, receipt, stored).value;
    ReportsIgnoreSpelling(result.rule, result.headroomUnits, receipt, stored, deps.context.account, view.account,
                          view.requestId, view.mandateId);
    hide GoodPhase, GoodRow;
  }

  /** Whatever is reported is shown. */
  lemma ReportedIsShown(links: Links, chain: Chain, b: Busy)
    requires b.phase.Reconciling? && GoodPhase(links, chain, b.phase, b.view) && GoodRow(links, chain, b.view)
    requires b.phase.hash in chain.receipts
    ensures var receipt, stored := chain.receipts[b.phase.hash], RecordAt(chain, KeyOf(b.phase.job));
            var result := ReconcilePayment(b.phase.deps.context, b.phase.job.requestId, b.phase.job.mandateId,
                                           b.phase.intent, receipt, stored);
            result.Ok? ==> ChainShows(links, chain, b.view, result.value.state)
  {
    var Busy(Reconciling(job, deps, hash, note, intent), view) := b;
    assert KeyOf(job) == KeyOf(view) && job.requestId == view.requestId
           && job.mandateId == view.mandateId by { SameKey(job, view); }
    assert SameText(deps.context.account, view.account);
    assert ParseUsdc(intent.amountUsdc) == Ok(view.parsedAmount.value);
    hide ParseUsdc, ReconcilePayment, Proves, PaysRow, KeyOf, Lower, IsChecksum;
    var receipt, stored := chain.receipts[hash], RecordAt(chain, KeyOf(job));
    var result := ReconcilePayment(deps.context, job.requestId, job.mandateId, intent, receipt, stored);
    if result.Ok? {
      ReportedIffProved(deps.context, job.requestId, job.mandateId, intent, receipt, stored, result.value.state);
      ProofIgnoresSpelling(receipt, stored, deps.context.account, view.account, deps.context.agentAddress,
                           links[view.account].agentAddress,
                           job.requestId, job.mandateId, intent.recipient, view.parsedAmount.value, result.value.state);
    }
  }

  /** Without a receipt it is left open. */
  lemma NoReceiptIsOpen(t: Tables, links: Links, worker: WorkerId, phase: Phase)
    requires phase.Reconciling? && IsNote(phase.note)
    ensures var next := Think(t, links, worker, phase, NoReceipt);
            next.Some? && next.value.Finishing? && IsOpenResult(phase.note, next.value.result) && next.value.retry.None?
  {
  }

  /** And with one of which nothing is reported. */
  lemma NothingReportedIsOpen(t: Tables, links: Links, worker: WorkerId, phase: Phase, receipt: Receipt,
                              stored: StoredRequest)
    requires phase.Reconciling? && IsNote(phase.note)
    requires ReconcilePayment(phase.deps.context, phase.job.requestId, phase.job.mandateId, phase.intent, receipt,
                              stored).Err?
    ensures var next := Think(t, links, worker, phase, ReceiptArrived(receipt, stored));
            next.Some? && next.value.Finishing? && IsOpenResult(phase.note, next.value.result) && next.value.retry.None?
  {
    hide ReconcilePayment;
  }

  // -- The finish --------------------------------------------------------------------------------

  /** The row a committed finish leaves. */
  predicate IsFinished(was: Row, row: Row, result: FinishResult) {
    row == was.(state := result.state, rule := result.rule, attemptedUnits := result.attemptedUnits,
                headroomUnits := result.headroomUnits, errorCode := result.errorCode, leaseOwner := None,
                  leaseUntil := None)
  }

  predicate IsShort(errorCode: Option<string>) {
    errorCode.Some? ==> |errorCode.value| <= 100
  }

  lemma FinishCommits(t: Tables, links: Links, worker: WorkerId, b: Busy)
    requires b.phase.Finishing? && b.phase.job.id == b.view.id && Owns(t, b.view.id, worker)
             && t.rows[b.view.id] == b.view
    requires IsShort(b.phase.result.errorCode)
    ensures var effect := Advance(t, links, worker, b, Committed);
            && effect.next.None? && b.view.id in effect.tables.rows
            && IsFinished(b.view, effect.tables.rows[b.view.id], b.phase.result)
            && (forall other :: other in t.rows && other != b.view.id ==>
                  other in effect.tables.rows && effect.tables.rows[other] == t.rows[other])
  {
    if b.phase.result.errorCode.Some? {
      var text := b.phase.result.errorCode.value;
      assert text[..|text|] == text;
    }
  }

  // -- Over runs ---------------------------------------------------------------------------------

  /** Between two of its own steps nothing happens to a worker. */
  lemma {:induction false} WorkerWaits(links: Links, provider: Option<string>, run: seq<World>, events: seq<Event>,
                                       i: nat, j: nat, worker: WorkerId)
    requires IsRun(links, provider, run, events) && i <= j < |run| && worker in run[i].workers
    requires forall k :: i <= k < j ==> !(events[k].Acts? && events[k].worker == worker)
    ensures worker in run[j].workers && run[j].workers[worker] == run[i].workers[worker]
    decreases j
  {
    if i < j {
      WorkerWaits(links, provider, run, events, i, j - 1, worker);
      assert Enabled(links, provider, run[j - 1], events[j - 1])
             && run[j] == Apply(links, provider, run[j - 1], events[j - 1]);
      hide IsRun, Advance, IsNext, Inserts, IsLinkOf, Answers, LockFree, HashInput;
    }
  }

  /** The worker's next step after `i` is `j`, and it still holds the lease of its row then. */
  predicate GoesOnAt(run: seq<World>, events: seq<Event>, i: nat, j: nat, worker: WorkerId, id: RowId) {
    && i < j < |events| && j + 1 < |run|
    && (forall k :: i < k < j ==> !(events[k].Acts? && events[k].worker == worker))
    && id in run[j].tables.rows && run[j].tables.rows[id].leaseOwner == Some(worker)
  }

  /** What a worker is about to finish with is, once committed, what its row holds. */
  lemma CommittedFinish(links: Links, provider: Option<string>, run: seq<World>, events: seq<Event>, j: nat,
                        worker: WorkerId)
    requires IsRun(links, provider, run, events) && j < |events| && worker in run[j].workers
             && run[j].workers[worker].phase.Finishing?
    requires events[j] == Acts(worker, Committed) && IsShort(run[j].workers[worker].phase.result.errorCode)
    requires run[j].workers[worker].view.id in run[j].tables.rows
             && run[j].tables.rows[run[j].workers[worker].view.id].leaseOwner == Some(worker)
    ensures j + 1 < |run|
    ensures var b := run[j].workers[worker];
            && b.view.id in run[j].tables.rows && run[j].tables.rows[b.view.id] == b.view
            && b.view.id in run[j + 1].tables.rows
               && IsFinished(b.view, run[j + 1].tables.rows[b.view.id], b.phase.result)
  {
    LeaseFences(links, provider, run, events, j, worker);
    RunsAreGood(links, provider, run, events, j);
    var b := run[j].workers[worker];
    assert RowsGood(links, run[j]) && Owns(run[j].tables, b.view.id, worker);
    assert Enabled(links, provider, run[j], events[j]) && run[j + 1] == Apply(links, provider, run[j], events[j]);
    hide IsRun, Inv, GoodPhase, Answers, LockFree, Advance, IsFinished;
    FinishCommits(run[j].tables, links, worker, b);
  }

  /** A worker in `Reconciling` is answered: its next phase is what its thought gives, its view stays. */
  lemma Answered(links: Links, provider: Option<string>, run: seq<World>, events: seq<Event>, i: nat, worker: WorkerId)
    requires IsRun(links, provider, run, events) && i < |events| && worker in run[i].workers
             && run[i].workers[worker].phase.Reconciling?
    requires events[i].Acts? && events[i].worker == worker && !events[i].answer.Crashed?
    ensures i + 1 < |run| && Expects(run[i].workers[worker].phase, events[i].answer)
    ensures var b := run[i].workers[worker];
            var next := Think(run[i].tables, links, worker, b.phase, events[i].answer);
            && GoodPhase(links, run[i].chain, b.phase, b.view) && GoodRow(links, run[i].chain, b.view)
            && (next.Some? ==> worker in run[i + 1].workers && run[i + 1].workers[worker] == Busy(next.value, b.view))
            && (events[i].answer.ReceiptArrived? ==>
                  && b.phase.hash in run[i].chain.receipts
                     && events[i].answer.receipt == run[i].chain.receipts[b.phase.hash]
                  && events[i].answer.stored == RecordAt(run[i].chain, KeyOf(b.phase.job)))
  {
    RunsAreGood(links, provider, run, events, i);
    assert Fenced(links, run[i], worker);
    assert Enabled(links, provider, run[i], events[i]) && run[i + 1] == Apply(links, provider, run[i], events[i]);
    hide IsRun, Inv, GoodPhase, GoodRow, LockFree, Think, Later, KeyOf;
  }

  /**
   * What the chain shows is stored: when a worker that still holds its row is told of its receipt and its
   * finish commits, the row has exactly the outcome the chain shows for it, with its own amount as the one
   * attempted and the rule and the headroom of the first outcome log, or of the stored record.
   */
  lemma ShownOutcomeIsStored(links: Links, provider: Option<string>, run: seq<World>, events: seq<Event>, i: nat,
                             j: nat, worker: WorkerId, outcome: Outcome)
    requires IsRun(links, provider, run, events) && i < |events| && worker in run[i].workers
             && run[i].workers[worker].phase.Reconciling?
    requires events[i].Acts? && events[i].worker == worker && events[i].answer.ReceiptArrived?
    requires ChainShows(links, run[i].chain, run[i].workers[worker].view, outcome)
    requires GoesOnAt(run, events, i, j, worker, run[i].workers[worker].view.id) && events[j] == Acts(worker, Committed)
    ensures var was, note := run[i].workers[worker].view, run[i].workers[worker].phase.note;
            && was.id in run[j].tables.rows && run[j].tables.rows[was.id] == was
            && was.id in run[j + 1].tables.rows
            && EndsWith(was, run[j + 1].tables.rows[was.id], outcome, note, events[i].answer.receipt,
                        events[i].answer.stored)
  {
    Answered(links, provider, run, events, i, worker);
    var b := run[i].workers[worker];
    assert IsNote(b.phase.note);
    ShownIsReported(links, run[i].chain, run[i].tables, worker, b, outcome);
    WorkerWaits(links, provider, run, events, i + 1, j, worker);
    hide IsRun, GoodPhase, GoodRow, Think, ChainShows, Reports, KeyOf;
    var result := run[j].workers[worker].phase.result;
    assert IsShort(result.errorCode);
    CommittedFinish(links, provider, run, events, j, worker);
  }

  /**
   * What it does not show stays open: without a receipt, or with one that shows no outcome for the row,
   * the committed finish leaves the row unknown, with its bytes and hash, for another worker to claim.
   */
  lemma NothingShownStaysOpen(links: Links, provider: Option<string>, run: seq<World>, events: seq<Event>, i: nat,
                              j: nat, worker: WorkerId)
    requires IsRun(links, provider, run, events) && i < |events| && worker in run[i].workers
             && run[i].workers[worker].phase.Reconciling?
    requires events[i].Acts? && events[i].worker == worker
    requires events[i].answer.NoReceipt?
             || (events[i].answer.ReceiptArrived? && NothingShown(links, run[i].chain, run[i].workers[worker].view))
    requires GoesOnAt(run, events, i, j, worker, run[i].workers[worker].view.id) && events[j] == Acts(worker, Committed)
    ensures var was, note := run[i].workers[worker].view, run[i].workers[worker].phase.note;
            && was.id in run[j + 1].tables.rows
            && exists code :: IsOpenCode(note, code) && EndsUnknown(was, run[j + 1].tables.rows[was.id], code)
  {
    Answered(links, provider, run, events, i, worker);
    var b := run[i].workers[worker];
    assert IsNote(b.phase.note);
    if events[i].answer.NoReceipt? {
      NoReceiptIsOpen(run[i].tables, links, worker, b.phase);
    } else {
      ReportedIsShown(links, run[i].chain, b);
      hide ReconcilePayment;
      NothingReportedIsOpen(run[i].tables, links, worker, b.phase, events[i].answer.receipt, events[i].answer.stored);
    }
    WorkerWaits(links, provider, run, events, i + 1, j, worker);
    hide IsRun, GoodPhase, GoodRow, Think, ChainShows, KeyOf;
    var result := run[j].workers[worker].phase.result;
    assert IsShort(result.errorCode) && IsOpenCode(b.phase.note, result.errorCode.value);
    CommittedFinish(links, provider, run, events, j, worker);
  }
}
