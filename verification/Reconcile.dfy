/** From a receipt to an outcome: `agent/src/payment/submit-payment.ts`. */
module Reconcile {
  import opened Prelude
  import opened Amount
  import opened Instruction
  import opened Payments

  datatype OutcomeEvent =
    | ExecutedEvent(requestId: string, mandateId: nat, agent: string, recipient: string, amount: nat, headroom: nat)
    | RefusedEvent(requestId: string, mandateId: nat, agent: string, recipient: string, attempted: nat, rule: nat,
                   headroom: nat)
    | OtherEvent(name: string)

  /** `decoded` is empty when the data does not decode against the account's interface. */
  datatype Log = Log(address: string, topicCount: nat, decoded: Option<OutcomeEvent>)

  datatype Receipt = Receipt(reverted: bool, from: string, to: Option<string>, logs: seq<Log>)

  datatype StoredRequest = StoredRequest(agent: string, recipient: string, attempted: nat, headroom: nat, outcome: nat,
                                         rule: nat)

  datatype Outcome = DidExecute | DidRefuse | DidRevert

  datatype PaymentResult = PaymentResult(state: Outcome, rule: Option<string>, attemptedUnits: nat,
                                         headroomUnits: Option<nat>)

  datatype ReconcileError = BadIntent | EnvelopeMismatch | EventMismatch | StoredMismatch | NoOutcome

  const REFUSAL_RULES: seq<string> := ["NONE", "MANDATE_REVOKED", "MANDATE_EXPIRED", "RECIPIENT_NOT_ALLOWED",
                                       "PER_PAYMENT_CAP", "CUMULATIVE_CAP"]

  function RuleName(rule: nat): string {
    if rule < |REFUSAL_RULES| then REFUSAL_RULES[rule] else "UNKNOWN"
  }

  predicate IsOutcomeFor(log: Log, account: string, requestId: string, mandateId: nat) {
    && SameText(log.address, account) && log.topicCount > 0
    && log.decoded.Some? && !log.decoded.value.OtherEvent?
    && SameText(log.decoded.value.requestId, requestId) && log.decoded.value.mandateId == mandateId
  }

  /** The account's first log of an outcome for this request. */
  predicate IsFirstOutcome(logs: seq<Log>, i: int, account: string, requestId: string, mandateId: nat) {
    && 0 <= i < |logs| && IsOutcomeFor(logs[i], account, requestId, mandateId)
    && forall j :: 0 <= j < i ==> !IsOutcomeFor(logs[j], account, requestId, mandateId)
  }

  function FindOutcomeEvent(logs: seq<Log>, account: string, requestId: string,
                            mandateId: nat): (event: Option<OutcomeEvent>)
    ensures event.Some? ==> exists i :: IsFirstOutcome(logs, i, account, requestId,
                                                       mandateId) && logs[i].decoded == event
    ensures event.None? ==> forall i :: 0 <= i < |logs| ==> !IsOutcomeFor(logs[i], account, requestId, mandateId)
  {
    if logs == [] then None
    else if IsOutcomeFor(logs[0], account, requestId, mandateId) then
      assert IsFirstOutcome(logs, 0, account, requestId, mandateId);
      logs[0].decoded
    else
      assert forall i :: IsFirstOutcome(logs[1..], i, account, requestId, mandateId) ==>
          IsFirstOutcome(logs, i + 1, account, requestId, mandateId) && logs[1..][i] == logs[i + 1];
      FindOutcomeEvent(logs[1..], account, requestId, mandateId)
  }

  /** `stored` is what the account's getter answers, asked only when no event is found. */
  function ReconcilePayment(context: Context, requestId: string, mandateId: nat, intent: PaymentIntent,
                            receipt: Receipt, stored: StoredRequest): Result<PaymentResult, ReconcileError> {
    match ParseUsdc(intent.amountUsdc)
    case Err(_) => Err(BadIntent)
    case Ok(amount) =>
      if receipt.to.None? || !SameText(receipt.to.value, context.account)
        || !SameText(receipt.from, context.agentAddress) then Err(EnvelopeMismatch)
      else if receipt.reverted then Ok(PaymentResult(DidRevert, None, amount, None))
      else match FindOutcomeEvent(receipt.logs, context.account, requestId, mandateId)
        case Some(event) =>
          if event.ExecutedEvent? then
            if !SameText(event.agent, context.agentAddress) || !SameText(event.recipient, intent.recipient)
              || event.amount != amount then Err(EventMismatch)
            else Ok(PaymentResult(DidExecute, Some("NONE"), amount, Some(event.headroom)))
          else if event.RefusedEvent? then
            if !SameText(event.agent, context.agentAddress) || !SameText(event.recipient, intent.recipient)
              || event.attempted != amount then Err(EventMismatch)
            else Ok(PaymentResult(DidRefuse, Some(RuleName(event.rule)), amount, Some(event.headroom)))
          else Err(EventMismatch)
        case None =>
          if !SameText(stored.agent, context.agentAddress) || !SameText(stored.recipient, intent.recipient)
            || stored.attempted != amount then Err(StoredMismatch)
          else if stored.outcome == 1 then Ok(PaymentResult(DidExecute, Some("NONE"), amount, Some(stored.headroom)))
          else if stored.outcome == 2 then Ok(PaymentResult(DidRefuse, Some(RuleName(stored.rule)), amount,
                                                            Some(stored.headroom)))
          else Err(NoOutcome)
  }

  // -- What an outcome proves --------------------------------------------------------------------

  /** A logged outcome names this agent, recipient and amount. */
  predicate EventProves(event: OutcomeEvent, agent: string, recipient: string, amount: nat, outcome: Outcome) {
    match event
    case ExecutedEvent(_, _, a, r, units, _) =>
      outcome == DidExecute && SameText(a, agent) && SameText(r, recipient) && units == amount
    case RefusedEvent(_, _, a, r, units, _, _) =>
      outcome == DidRefuse && SameText(a, agent) && SameText(r, recipient) && units == amount
    case OtherEvent(_) => false
  }

  predicate RecordProves(stored: StoredRequest, agent: string, recipient: string, amount: nat, outcome: Outcome) {
    && SameText(stored.agent, agent) && SameText(stored.recipient, recipient) && stored.attempted == amount
    && (outcome == DidExecute ==> stored.outcome == 1)
    && (outcome == DidRefuse ==> stored.outcome == 2)
    && outcome != DidRevert
  }

  predicate FromAgentToAccount(receipt: Receipt, account: string, agent: string) {
    receipt.to.Some? && SameText(receipt.to.value, account) && SameText(receipt.from, agent)
  }

  /** The first outcome the account logged for the request, if it logged one, is this one. */
  predicate LogShows(logs: seq<Log>, account: string, requestId: string, mandateId: nat, agent: string,
                     recipient: string, amount: nat, outcome: Outcome) {
    exists i :: 0 <= i < |logs| && IsFirstOutcome(logs, i, account, requestId, mandateId)
                && EventProves(logs[i].decoded.value, agent, recipient, amount, outcome)
  }

  predicate LogIsSilent(logs: seq<Log>, account: string, requestId: string, mandateId: nat) {
    forall i :: 0 <= i < |logs| ==> !IsOutcomeFor(logs[i], account, requestId, mandateId)
  }

  /**
   * The chain shows `outcome` for the request: a transaction from the agent to the account reverted, or
   * it succeeded and the log shows the outcome, or the log is silent and the stored record shows it.
   */
  predicate Proves(receipt: Receipt, stored: StoredRequest, account: string, agent: string, requestId: string,
                   mandateId: nat, recipient: string, amount: nat, outcome: Outcome) {
    && FromAgentToAccount(receipt, account, agent)
    && (receipt.reverted <==> outcome == DidRevert)
    && (outcome != DidRevert ==>
          || LogShows(receipt.logs, account, requestId, mandateId, agent, recipient, amount, outcome)
          || (LogIsSilent(receipt.logs, account, requestId, mandateId)
              && RecordProves(stored, agent, recipient, amount, outcome)))
  }

  lemma FirstIsUnique(logs: seq<Log>, i: int, j: int, account: string, requestId: string, mandateId: nat)
    requires IsFirstOutcome(logs, i, account, requestId, mandateId)
             && IsFirstOutcome(logs, j, account, requestId, mandateId)
    ensures i == j
  {
    hide IsOutcomeFor;
  }

  /** What the scan finds is what the log shows. */
  lemma FoundIsShown(logs: seq<Log>, account: string, requestId: string, mandateId: nat, agent: string,
                     recipient: string, amount: nat, outcome: Outcome)
    ensures var event := FindOutcomeEvent(logs, account, requestId, mandateId);
            && (event.None? <==> LogIsSilent(logs, account, requestId, mandateId))
            && (LogShows(logs, account, requestId, mandateId, agent, recipient, amount, outcome) <==>
                event.Some? && EventProves(event.value, agent, recipient, amount, outcome))
  {
    var event := FindOutcomeEvent(logs, account, requestId, mandateId);
    hide FindOutcomeEvent, SameText, EventProves;
    if event.Some? {
      var i :| IsFirstOutcome(logs, i, account, requestId, mandateId) && logs[i].decoded == event;
      forall j | IsFirstOutcome(logs, j, account, requestId, mandateId) ensures j == i {
        FirstIsUnique(logs, i, j, account, requestId, mandateId);
      }
      assert EventProves(event.value, agent, recipient, amount, outcome) ==>
               LogShows(logs, account, requestId, mandateId, agent, recipient, amount, outcome);
    }
  }

  /** A result is reported exactly when the chain proves it. */
  lemma ReportedIffProved(context: Context, requestId: string, mandateId: nat, intent: PaymentIntent, receipt: Receipt,
                          stored: StoredRequest, outcome: Outcome)
    requires ParseUsdc(intent.amountUsdc).Ok?
    ensures var amount := ParseUsdc(intent.amountUsdc).value;
            var result := ReconcilePayment(context, requestId, mandateId, intent, receipt, stored);
            (result.Ok? && result.value.state == outcome) <==>
            Proves(receipt, stored, context.account, context.agentAddress, requestId, mandateId, intent.recipient,
                   amount, outcome)
  {
    hide ParseUsdc, SameText, FindOutcomeEvent, LogShows, LogIsSilent, IsOutcomeFor;
    FoundIsShown(receipt.logs, context.account, requestId, mandateId, context.agentAddress, intent.recipient,
                 ParseUsdc(intent.amountUsdc).value, outcome);
  }

  /** Spelling does not matter: contexts that name the same account and agent prove the same outcomes. */
  lemma ProofIgnoresSpelling(receipt: Receipt, stored: StoredRequest, a: string, b: string, agentA: string,
                             agentB: string,
                             requestId: string, mandateId: nat, recipient: string, amount: nat, outcome: Outcome)
    requires SameText(a, b) && SameText(agentA, agentB)
    requires Proves(receipt, stored, a, agentA, requestId, mandateId, recipient, amount, outcome)
    ensures Proves(receipt, stored, b, agentB, requestId, mandateId, recipient, amount, outcome)
  {
    hide Lower;
    forall log: Log | true ensures IsOutcomeFor(log, a, requestId, mandateId) ==
      IsOutcomeFor(log, b, requestId, mandateId) {
    }
    hide IsOutcomeFor;
    if outcome != DidRevert && LogShows(receipt.logs, a, requestId, mandateId, agentA, recipient, amount, outcome) {
      var i :| 0 <= i < |receipt.logs| && IsFirstOutcome(receipt.logs, i, a, requestId, mandateId)
               && EventProves(receipt.logs[i].decoded.value, agentA, recipient, amount, outcome);
      assert IsFirstOutcome(receipt.logs, i, b, requestId, mandateId);
    }
  }

  // -- What is reported beside the outcome -------------------------------------------------------

  /** The name of a rule number. */
  predicate IsRuleName(rule: nat, name: string) {
    && (rule == 0 ==> name == "NONE")
    && (rule == 1 ==> name == "MANDATE_REVOKED")
    && (rule == 2 ==> name == "MANDATE_EXPIRED")
    && (rule == 3 ==> name == "RECIPIENT_NOT_ALLOWED")
    && (rule == 4 ==> name == "PER_PAYMENT_CAP")
    && (rule == 5 ==> name == "CUMULATIVE_CAP")
    && (rule > 5 ==> name == "UNKNOWN")
  }

  /** The rule and the headroom of an outcome as it was logged, or else as it is stored. */
  predicate IsReported(rule: Option<string>, headroom: Option<nat>, executed: bool, number: nat, room: nat) {
    rule.Some? && headroom == Some(room) && if executed then rule.value == "NONE" else IsRuleName(number, rule.value)
  }

  function NumberOf(event: OutcomeEvent): nat {
    if event.RefusedEvent? then event.rule else 0
  }

  /** A report says what the first outcome log of the request says, or, when there is none, what the record says. */
  predicate Reports(rule: Option<string>, headroom: Option<nat>, receipt: Receipt, stored: StoredRequest,
                    account: string, requestId: string, mandateId: nat) {
    if receipt.reverted then rule.None? && headroom.None?
    else
      && (forall i :: 0 <= i < |receipt.logs| && IsFirstOutcome(receipt.logs, i, account, requestId, mandateId) ==>
            var event := receipt.logs[i].decoded.value;
            IsReported(rule, headroom, event.ExecutedEvent?, NumberOf(event), event.headroom))
      && (LogIsSilent(receipt.logs, account, requestId, mandateId) ==>
            IsReported(rule, headroom, stored.outcome == 1, stored.rule, stored.headroom))
  }

  lemma RulesAreNamed(rule: nat)
    ensures IsRuleName(rule, RuleName(rule))
  {
  }

  /** Whatever is reported carries the amount asked for and the rule and headroom the chain shows. */
  lemma ReportIsExact(context: Context, requestId: string, mandateId: nat, intent: PaymentIntent, receipt: Receipt,
                      stored: StoredRequest)
    requires ReconcilePayment(context, requestId, mandateId, intent, receipt, stored).Ok?
    ensures var result := ReconcilePayment(context, requestId, mandateId, intent, receipt, stored).value;
            && ParseUsdc(intent.amountUsdc) == Ok(result.attemptedUnits)
            && Reports(result.rule, result.headroomUnits, receipt, stored, context.account, requestId, mandateId)
  {
    var event := FindOutcomeEvent(receipt.logs, context.account, requestId, mandateId);
    FoundIsTheFirst(receipt.logs, context.account, requestId, mandateId);
    RulesAreNamed(stored.rule);
    if event.Some? {
      RulesAreNamed(NumberOf(event.value));
    }
    hide ParseUsdc, SameText, FindOutcomeEvent, IsFirstOutcome, IsOutcomeFor, RuleName, IsRuleName, REFUSAL_RULES;
  }

  lemma FoundIsTheFirst(logs: seq<Log>, account: string, requestId: string, mandateId: nat)
    ensures var event := FindOutcomeEvent(logs, account, requestId, mandateId);
            && (event.None? <==> LogIsSilent(logs, account, requestId, mandateId))
            && forall i :: 0 <= i < |logs| && IsFirstOutcome(logs, i, account, requestId, mandateId) ==>
                 event == logs[i].decoded && event.Some? && !event.value.OtherEvent?
  {
    var event := FindOutcomeEvent(logs, account, requestId, mandateId);
    hide FindOutcomeEvent, SameText;
    forall i | 0 <= i < |logs| && IsFirstOutcome(logs, i, account, requestId, mandateId)
      ensures event == logs[i].decoded && event.Some? && !event.value.OtherEvent?
    {
      if event.Some? {
        var k :| IsFirstOutcome(logs, k, account, requestId, mandateId) && logs[k].decoded == event;
        FirstIsUnique(logs, i, k, account, requestId, mandateId);
      }
    }
  }

  /** The logs the scan looks at: the account's own, with topics, decodable, and of this request and mandate. */
  function Relevant(logs: seq<Log>, account: string, requestId: string, mandateId: nat): seq<Log> {
    Filter(logs, (log: Log) =>
      && Lower(log.address) == Lower(account) && log.topicCount != 0
      && log.decoded.Some?
      && (match log.decoded.value
          case ExecutedEvent(id, mandate, _, _, _, _) => Lower(id) == Lower(requestId) && mandate == mandateId
          case RefusedEvent(id, mandate, _, _, _, _, _) => Lower(id) == Lower(requestId) && mandate == mandateId
          case OtherEvent(_) => false))
  }

  /** It takes the first of them. */
  lemma {:induction false} ScanTakesTheFirstRelevant(logs: seq<Log>, account: string, requestId: string, mandateId: nat)
    ensures var relevant := Relevant(logs, account, requestId, mandateId);
            FindOutcomeEvent(logs, account, requestId, mandateId) == if relevant == [] then None
                                                                     else relevant[0].decoded
  {
    if logs != [] {
      hide Lower;
      ScanTakesTheFirstRelevant(logs[1..], account, requestId, mandateId);
    }
  }
}
