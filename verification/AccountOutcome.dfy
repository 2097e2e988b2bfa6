/** From the journal to the contract: what a finished row says did happen on the account, once. */
module AccountOutcome {
  import opened Prelude
  import opened Subgraph
  import opened Account
  import opened AccountTheorems
  import A = Amount
  import I = Instruction
  import R = Reconcile
  import Y = Payments
  import J = Journal
  import P = Protocol
  import T = ProtocolTheorems

  function Natural(rule: int): nat {
    if rule < 0 then 0 else rule
  }

  /** An outcome as a worker decodes it from a log. */
  function Decoded(e: Event): R.OutcomeEvent
    requires IsAction(e)
  {
    match e
    case Executed(_, mandateId, requestId, agent, recipient, amount, headroom, _, _) =>
      R.ExecutedEvent(requestId, mandateId, agent, recipient, amount, headroom)
    case Refused(_, mandateId, requestId, agent, recipient, attempted, rule, _, headroom, _, _) =>
      R.RefusedEvent(requestId, mandateId, agent, recipient, attempted, Natural(rule), headroom)
  }

  /** What `getRequest` answers. */
  function Getter(s: State, key: RequestKey): R.StoredRequest {
    if key in s.requests then
      var r := s.requests[key];
      R.StoredRequest(r.agent, r.recipient, r.attempted, r.headroom, if r.outcome == EXECUTED then 1 else 2,
                      Natural(r.rule))
    else P.NO_RECORD
  }

  /**
   * The event of a receipt and the getter tell the same: a worker that misses the log reports the
   * same result, or none in the same cases.
   */
  lemma EventAndGetterAgree(s: State, i: int, context: Y.Context, requestId: string, intent: I.PaymentIntent,
                            seen: R.Receipt, missed: R.Receipt)
    requires RequestsGood(s) && IsOutcome(s.log, i)
    requires missed == seen.(logs := missed.logs)
    requires R.FindOutcomeEvent(seen.logs, context.account, requestId, s.log[i].mandateId) == Some(Decoded(s.log[i]))
    requires R.FindOutcomeEvent(missed.logs, context.account, requestId, s.log[i].mandateId) == None
    ensures var stored, id := Getter(s, Account.KeyOf(s.log[i])), s.log[i].mandateId;
            var a := R.ReconcilePayment(context, requestId, id, intent, seen, stored);
            var b := R.ReconcilePayment(context, requestId, id, intent, missed, stored);
            a == b || (a == Err(R.EventMismatch) && b == Err(R.StoredMismatch))
  {
    hide A.ParseUsdc, R.FindOutcomeEvent, SameText, R.RuleName;
  }

  predicate ShowsOutcome(log: R.Log, account: string) {
    SameText(log.address, account) && log.decoded.Some? && !log.decoded.value.OtherEvent?
  }

  /** The outcomes a receipt shows at the account are outcomes of the account's log. */
  ghost predicate Genuine(c: Fixed, s: State, receipt: R.Receipt) {
    forall k :: 0 <= k < |receipt.logs| && ShowsOutcome(receipt.logs[k], c.self) ==>
      exists i :: IsOutcome(s.log, i) && receipt.logs[k].decoded.value == Decoded(s.log[i])
  }

  predicate IsOutcomeOf(e: Event, requestId: string, mandateId: nat, agent: string, recipient: string, amount: nat,
                        executed: bool)
    requires IsAction(e)
  {
    && SameText(e.requestId, requestId) && e.mandateId == mandateId && e.Executed? == executed
    && SameText(e.agent, agent) && SameText(e.recipient, recipient) && ActionOf(e).attempted == amount
  }

  lemma ProvedOutcomeHappened(c: Fixed, s: State, receipt: R.Receipt, account: string, agent: string, requestId: string,
                              mandateId: nat, recipient: string, amount: nat, outcome: R.Outcome)
    requires RequestsGood(s) && SameText(account, c.self) && Genuine(c, s, receipt) && outcome != R.DidRevert
    requires R.Proves(receipt, Getter(s, (mandateId, Lower(requestId))), account, agent, requestId, mandateId,
                      recipient, amount, outcome)
    ensures exists i :: IsOutcome(s.log, i) && IsOutcomeOf(s.log[i], requestId, mandateId, agent, recipient, amount,
                                                           outcome == R.DidExecute)
  {
    hide SameText, Lower, IsOutcomeOf, R.LogShows, R.LogIsSilent, R.RecordProves;
    if R.LogShows(receipt.logs, account, requestId, mandateId, agent, recipient, amount, outcome) {
      LoggedOutcomeHappened(c, s, receipt, account, agent, requestId, mandateId, recipient, amount, outcome);
    } else {
      StoredOutcomeHappened(s, agent, requestId, mandateId, recipient, amount, outcome);
    }
  }

  lemma LoggedOutcomeHappened(c: Fixed, s: State, receipt: R.Receipt, account: string, agent: string, requestId: string,
                              mandateId: nat, recipient: string, amount: nat, outcome: R.Outcome)
    requires SameText(account, c.self) && Genuine(c, s, receipt)
    requires R.LogShows(receipt.logs, account, requestId, mandateId, agent, recipient, amount, outcome)
    ensures exists i :: IsOutcome(s.log, i) && IsOutcomeOf(s.log[i], requestId, mandateId, agent, recipient, amount,
                                                           outcome == R.DidExecute)
  {
    hide Lower;
    var k :| 0 <= k < |receipt.logs| && R.IsFirstOutcome(receipt.logs, k, account, requestId, mandateId)
             && R.EventProves(receipt.logs[k].decoded.value, agent, recipient, amount, outcome);
    var i :| IsOutcome(s.log, i) && receipt.logs[k].decoded.value == Decoded(s.log[i]);
    assert IsOutcomeOf(s.log[i], requestId, mandateId, agent, recipient, amount, outcome == R.DidExecute);
  }

  lemma StoredOutcomeHappened(s: State, agent: string, requestId: string, mandateId: nat, recipient: string,
                              amount: nat, outcome: R.Outcome)
    requires RequestsGood(s) && R.RecordProves(Getter(s, (mandateId, Lower(requestId))), agent, recipient, amount,
                                               outcome)
    ensures exists i :: IsOutcome(s.log, i) && IsOutcomeOf(s.log[i], requestId, mandateId, agent, recipient, amount,
                                                           outcome == R.DidExecute)
  {
    LowerIsIdempotent(requestId);
    hide Lower;
    var key := (mandateId, Lower(requestId));
    assert key in s.requests && Answered(s.log, key);
    var i :| IsOutcome(s.log, i) && Account.KeyOf(s.log[i]) == key;
    assert IsOutcomeOf(s.log[i], requestId, mandateId, agent, recipient, amount, outcome == R.DidExecute);
  }

  /** Its request has no other. */
  ghost predicate IsTheOutcome(log: seq<Event>, i: int)
    requires IsOutcome(log, i)
  {
    forall j :: IsOutcome(log, j) && Account.KeyOf(log[j]) == Account.KeyOf(log[i]) ==> j == i
  }

  /** The worker's chain is this contract, for the row's account and the row's own receipt. */
  ghost predicate ChainIs(c: Fixed, s: State, chain: P.Chain, row: J.Row) {
    && SameText(row.account, c.self)
    && P.RecordAt(chain, P.KeyOf(row)) == Getter(s, (row.mandateId, Lower(row.requestId)))
    && (row.txHash.Some? && row.txHash.value in chain.receipts ==> Genuine(c, s, chain.receipts[row.txHash.value]))
  }

  /**
   * From journal to contract: in any run of the fleet beside any run of the contract, a row shown as
   * executed or refused has that outcome on the account, for its own request, mandate, recipient and
   * amount, and it is the only outcome of that request.
   */
  lemma FinishedRowsHappened(links: J.Links, provider: Option<string>, run: seq<P.World>, events: seq<P.Event>, n: nat,
                             id: Y.RowId,
                             c: Fixed, states: seq<State>, calls: seq<Call>, m: nat)
    requires P.IsRun(links, provider, run, events) && n < |run| && IsCallRun(c, states, calls) && m < |states|
    requires id in run[n].tables.rows && run[n].tables.rows[id].state in {J.Executed, J.Refused}
    requires ChainIs(c, states[m], run[n].chain, run[n].tables.rows[id])
    ensures var row := run[n].tables.rows[id];
            && row.account in links && row.parsedRecipient.Some? && row.parsedAmount.Some?
            && exists i :: IsOutcome(states[m].log, i) && IsTheOutcome(states[m].log, i)
                           && IsOutcomeOf(states[m].log[i], row.requestId, row.mandateId,
                                          links[row.account].agentAddress,
                                          row.parsedRecipient.value, row.parsedAmount.value, row.state == J.Executed)
  {
    T.OutcomesAreProved(links, provider, run, events, n, id);
    CallRunsAreGood(c, states, calls, m);
    hide P.IsRun, IsCallRun, R.Proves, LogGood, Mirrored, Limits, RequestsGood, Genuine;
    var row, chain := run[n].tables.rows[id], run[n].chain;
    var outcome := if row.state == J.Executed then R.DidExecute else R.DidRefuse;
    ProvedOutcomeHappened(c, states[m], chain.receipts[row.txHash.value], row.account, links[row.account].agentAddress,
                          row.requestId, row.mandateId, row.parsedRecipient.value, row.parsedAmount.value, outcome);
    hide IsOutcomeOf;
    forall i | IsOutcome(states[m].log, i) ensures IsTheOutcome(states[m].log, i) {
      forall j | IsOutcome(states[m].log, j)
        && Account.KeyOf(states[m].log[j]) == Account.KeyOf(states[m].log[i]) ensures j == i {
        OneOutcomePerRequest(c, states, calls, m, i, j);
      }
    }
  }
}
