/**
 * The account contract: `contracts/src/GolAccount.sol`. A call either reverts and leaves the state, or
 * appends its events to the log that the index is built from. Addresses and request IDs are exact text.
 */
module Account {
  import opened Prelude
  import opened Subgraph

  const ZERO_ADDRESS := "0x0000000000000000000000000000000000000000"
  const ZERO_REQUEST := "0x0000000000000000000000000000000000000000000000000000000000000000"
  const MAX_MANDATE_DURATION: nat := 30 * 24 * 60 * 60
  const MAX_RECIPIENTS: nat := 20

  datatype Fixed = Fixed(self: string, owner: string, usdc: string)

  datatype Grant = Grant(agent: string, perPaymentCap: nat, cumulativeCap: nat, spent: nat, expiresAt: nat,
                         revoked: bool, recipients: seq<string>)

  /** What `payloadHash` hashes, apart from the chain and the account. */
  datatype Payload = Payload(mandateId: nat, agent: string, recipient: string, amount: nat)

  datatype Record = Record(
    payload: Payload, agent: string, recipient: string, attempted: nat, headroom: nat, spentAfter: nat,
    outcome: Outcome, rule: int, reason: string, sequence: nat)

  type RequestKey = (nat, string)

  datatype State = State(
    nextMandateId: nat, activeMandateId: nat, sequence: nat,
    mandates: map<nat, Grant>, requests: map<RequestKey, Record>, log: seq<Event>)

  const FRESH := State(1, 0, 0, map[], map[], [])

  datatype Revert =
    | OnlyOwner | UnknownMandate | UnauthorizedAgent | InvalidAgent | InvalidCaps | InvalidExpiry | InvalidRecipients
    | DuplicateRecipient | InvalidRequestId | InvalidRecipient | InvalidAmount | RequestConflict
    | InsufficientFunds | TokenCallFailed

  // -- What one event does to the storage --------------------------------------------------------

  function Logged(s: State, e: Event): State {
    s.(log := s.log + [e])
  }

  function AfterRevocation(s: State, mandateId: nat, meta: Meta): State
    requires mandateId in s.mandates
  {
    var grant := s.mandates[mandateId].(revoked := true);
    Logged(s.(mandates := s.mandates[mandateId := grant],
              activeMandateId := if s.activeMandateId == mandateId then 0 else s.activeMandateId),
           MandateRevoked(meta, mandateId, grant.agent))
  }

  function AfterCreation(s: State, grant: Grant, meta: Meta): State {
    var id := s.nextMandateId;
    Logged(s.(mandates := s.mandates[id := grant], nextMandateId := id + 1, activeMandateId := id),
           MandateCreated(meta, id, grant.agent, grant.perPaymentCap, grant.cumulativeCap, grant.expiresAt,
                          grant.recipients))
  }

  function RecordOf(e: Event): Record
    requires IsAction(e)
  {
    match e
    case Executed(_, mandateId, _, agent, recipient, amount, headroom, spentAfter, sequence) =>
      Record(Payload(mandateId, agent, recipient, amount), agent, recipient, amount, headroom, spentAfter, EXECUTED, 0,
             "Payment executed", sequence)
    case Refused(_, mandateId, _, agent, recipient, attempted, rule, reason, headroom, spentAfter, sequence) =>
      Record(Payload(mandateId, agent, recipient, attempted), agent, recipient, attempted, headroom, spentAfter,
             REFUSED,
             rule, reason, sequence)
  }

  function KeyOf(e: Event): RequestKey
    requires IsAction(e)
  {
    (e.mandateId, e.requestId)
  }

  /** An outcome is recorded under its request and, when executed, spent. */
  function AfterOutcome(s: State, e: Event): State
    requires IsAction(e) && e.mandateId in s.mandates
  {
    var mandates := if e.Executed? then s.mandates[e.mandateId := s.mandates[e.mandateId].(spent := e.spentAfter)]
                    else s.mandates;
    Logged(s.(mandates := mandates, requests := s.requests[KeyOf(e) := RecordOf(e)], sequence := s.sequence + 1), e)
  }

  // -- The calls ---------------------------------------------------------------------------------

  function RecipientFault(c: Fixed, earlier: seq<string>, recipient: string): Option<Revert> {
    if recipient == ZERO_ADDRESS || recipient == c.self || recipient == c.usdc then Some(InvalidRecipients)
    else if recipient in earlier then Some(DuplicateRecipient)
    else None
  }

  /** The first fault of the list. */
  function RecipientsFault(c: Fixed, recipients: seq<string>): Option<Revert> {
    if recipients == [] then None
    else
      var front := recipients[..|recipients| - 1];
      if RecipientsFault(c, front).Some? then RecipientsFault(c, front)
      else RecipientFault(c, front, recipients[|recipients| - 1])
  }

  datatype Call =
    | CreateMandate(caller: string, agent: string, perPaymentCap: nat, cumulativeCap: nat, expiresAt: nat,
                    recipients: seq<string>, now: nat, replaced: Meta, created: Meta)
    | RevokeMandate(caller: string, mandateId: nat, at: Meta)
    // What the token answers is part of the call: its balance, if it answers, and whether it transfers.
    | Withdraw(caller: string, amount: nat, balance: Option<nat>, transferred: bool, at: Meta)
    | Pay(caller: string, mandateId: nat, requestId: string, recipient: string, amount: nat, now: nat,
          balance: Option<nat>, transferred: bool, at: Meta)

  function CreateFault(c: Fixed, call: Call): Option<Revert>
    requires call.CreateMandate?
  {
    if call.caller != c.owner then Some(OnlyOwner)
    else if call.agent == ZERO_ADDRESS || call.agent == c.owner || call.agent == c.self || call.agent ==
      c.usdc then Some(InvalidAgent)
    else if call.perPaymentCap == 0 || call.cumulativeCap == 0
      || call.perPaymentCap > call.cumulativeCap then Some(InvalidCaps)
    else if call.expiresAt <= call.now || call.expiresAt > call.now + MAX_MANDATE_DURATION then Some(InvalidExpiry)
    else if |call.recipients| > MAX_RECIPIENTS then Some(InvalidRecipients)
    else RecipientsFault(c, call.recipients)
  }

  function AfterCreate(s: State, call: Call): State
    requires call.CreateMandate?
  {
    var grant := Grant(call.agent, call.perPaymentCap, call.cumulativeCap, 0, call.expiresAt, false, call.recipients);
    var previous := s.activeMandateId;
    var replaced := if previous in s.mandates && previous != 0
        && !s.mandates[previous].revoked then AfterRevocation(s, previous, call.replaced) else s;
    AfterCreation(replaced, grant, call.created)
  }

  function TokenFault(amount: nat, balance: Option<nat>, transferred: bool): Option<Revert> {
    if balance.None? then Some(TokenCallFailed)
    else if balance.value < amount then Some(InsufficientFunds)
    else if !transferred then Some(TokenCallFailed)
    else None
  }

  function PayFault(s: State, call: Call): Option<Revert>
    requires call.Pay?
  {
    if call.mandateId !in s.mandates then Some(UnknownMandate)
    else if call.caller != s.mandates[call.mandateId].agent then Some(UnauthorizedAgent)
    else if call.requestId == ZERO_REQUEST then Some(InvalidRequestId)
    else if call.recipient == ZERO_ADDRESS then Some(InvalidRecipient)
    else if call.amount == 0 then Some(InvalidAmount)
    else None
  }

  function PayloadOf(call: Call): Payload
    requires call.Pay?
  {
    Payload(call.mandateId, call.caller, call.recipient, call.amount)
  }

  function Headroom(grant: Grant): nat {
    if grant.spent <= grant.cumulativeCap then grant.cumulativeCap - grant.spent else 0
  }

  /** The number of the first rule the payment breaks, or 0, and its text. */
  function Verdict(s: State, call: Call): (int, string)
    requires call.Pay? && call.mandateId in s.mandates
  {
    var grant := s.mandates[call.mandateId];
    if grant.revoked || call.mandateId != s.activeMandateId then (1, "Mandate revoked")
    else if call.now >= grant.expiresAt then (2, "Mandate expired")
    else if grant.recipients != [] && call.recipient !in grant.recipients then (3, "Recipient not allowed")
    else if call.amount > grant.perPaymentCap then (4, "Per-payment cap exceeded")
    else if call.amount > Headroom(grant) then (5, "Cumulative cap exceeded")
    else (0, "")
  }

  /** The outcome a new request gets. */
  function OutcomeOf(s: State, call: Call): Event
    requires call.Pay? && call.mandateId in s.mandates
  {
    var grant := s.mandates[call.mandateId];
    var (rule, reason) := Verdict(s, call);
    if rule != 0 then
      Refused(call.at, call.mandateId, call.requestId, call.caller, call.recipient, call.amount, rule, reason,
              Headroom(grant), grant.spent, s.sequence + 1)
    else
      Executed(call.at, call.mandateId, call.requestId, call.caller, call.recipient, call.amount,
               Headroom(grant.(spent := grant.spent + call.amount)), grant.spent + call.amount, s.sequence + 1)
  }

  datatype Reply = Nothing | Recorded(outcome: Outcome)

  function AfterPay(s: State, call: Call): (State, Result<Reply, Revert>)
    requires call.Pay?
  {
    var key := (call.mandateId, call.requestId);
    if PayFault(s, call).Some? then (s, Err(PayFault(s, call).value))
    else if key in s.requests then
      (if s.requests[key].payload != PayloadOf(call) then (s, Err(RequestConflict))
       else (s, Ok(Recorded(s.requests[key].outcome))))
    else
      var e := OutcomeOf(s, call);
      var fault := TokenFault(call.amount, call.balance, call.transferred);
      if e.Executed? && fault.Some? then (s, Err(fault.value))
      else (AfterOutcome(s, e), Ok(Recorded(if e.Executed? then EXECUTED else REFUSED)))
  }

  /** One transaction. */
  function Perform(c: Fixed, s: State, call: Call): (State, Result<Reply, Revert>) {
    match call
    case CreateMandate(_, _, _, _, _, _, _, _, _) =>
      if CreateFault(c, call).Some? then (s, Err(CreateFault(c, call).value)) else (AfterCreate(s, call), Ok(Nothing))
    case RevokeMandate(caller, mandateId, at) =>
      if caller != c.owner then (s, Err(OnlyOwner))
      else if mandateId !in s.mandates then (s, Err(UnknownMandate))
      else (if s.mandates[mandateId].revoked then s else AfterRevocation(s, mandateId, at), Ok(Nothing))
    case Withdraw(caller, amount, balance, transferred, at) =>
      if caller != c.owner then (s, Err(OnlyOwner))
      else if amount == 0 then (s, Err(InvalidAmount))
      else if TokenFault(amount, balance, transferred).Some? then
        (s, Err(TokenFault(amount, balance, transferred).value))
      else (Logged(s, Withdrawn(at, amount)), Ok(Nothing))
    case Pay(_, _, _, _, _, _, _, _, _) => AfterPay(s, call)
  }

  // -- The contract object -----------------------------------------------------------------------

  class GolAccount {
    const fixed: Fixed
    var nextMandateId: nat
    var activeMandateId: nat
    var sequence: nat
    var mandates: map<nat, Grant>
    var requests: map<RequestKey, Record>
    var log: seq<Event>

    constructor (fixed: Fixed)
      ensures this.fixed == fixed && Contents() == FRESH
    {
      this.fixed := fixed;
      nextMandateId, activeMandateId, sequence := 1, 0, 0;
      mandates, requests, log := map[], map[], [];
    }

    function Contents(): State
      reads this
    {
      State(nextMandateId, activeMandateId, sequence, mandates, requests, log)
    }

    method CreateMandate(call: Call) returns (result: Result<Reply, Revert>)
      requires call.CreateMandate?
      modifies this
      ensures (Contents(), result) == Perform(fixed, old(Contents()), call)
    {
      if call.caller != fixed.owner {
        return Err(OnlyOwner);
      }
      if call.agent == ZERO_ADDRESS || call.agent == fixed.owner || call.agent == fixed.self || call.agent ==
        fixed.usdc {
        return Err(InvalidAgent);
      }
      if call.perPaymentCap == 0 || call.cumulativeCap == 0 || call.perPaymentCap > call.cumulativeCap {
        return Err(InvalidCaps);
      }
      if call.expiresAt <= call.now || call.expiresAt > call.now + MAX_MANDATE_DURATION {
        return Err(InvalidExpiry);
      }
      if |call.recipients| > MAX_RECIPIENTS {
        return Err(InvalidRecipients);
      }
      var fault := CheckRecipients(call.recipients);
      if fault.Some? {
        return Err(fault.value);
      }
      var previous := activeMandateId;
      if previous in mandates && previous != 0 && !mandates[previous].revoked {
        Revoke(previous, call.replaced);
      }
      var id := nextMandateId;
      nextMandateId := nextMandateId + 1;
      mandates := mandates[id := Grant(call.agent, call.perPaymentCap, call.cumulativeCap, 0, call.expiresAt, false,
                                       call.recipients)];
      activeMandateId := id;
      log := log + [MandateCreated(call.created, id, call.agent, call.perPaymentCap, call.cumulativeCap, call.expiresAt,
                                   call.recipients)];
      return Ok(Nothing);
    }

    method CheckRecipients(recipients: seq<string>) returns (fault: Option<Revert>)
      ensures fault == RecipientsFault(fixed, recipients)
    {
      var seen := [];
      for i := 0 to |recipients|
        invariant seen == recipients[..i] && RecipientsFault(fixed, recipients[..i]).None?
      {
        assert recipients[..i + 1][..i] == recipients[..i];
        if RecipientFault(fixed, seen, recipients[i]).Some? {
          FaultStays(fixed, recipients, i + 1);
          return RecipientFault(fixed, seen, recipients[i]);
        }
        seen := seen + [recipients[i]];
      }
      assert recipients[..|recipients|] == recipients;
      return None;
    }

    method Revoke(mandateId: nat, at: Meta)
      requires mandateId in mandates
      modifies this
      ensures Contents() == AfterRevocation(old(Contents()), mandateId, at)
    {
      mandates := mandates[mandateId := mandates[mandateId].(revoked := true)];
      if activeMandateId == mandateId {
        activeMandateId := 0;
      }
      log := log + [MandateRevoked(at, mandateId, mandates[mandateId].agent)];
    }

    method RevokeMandate(call: Call) returns (result: Result<Reply, Revert>)
      requires call.RevokeMandate?
      modifies this
      ensures (Contents(), result) == Perform(fixed, old(Contents()), call)
    {
      if call.caller != fixed.owner {
        return Err(OnlyOwner);
      }
      if call.mandateId !in mandates {
        return Err(UnknownMandate);
      }
      if !mandates[call.mandateId].revoked {
        Revoke(call.mandateId, call.at);
      }
      return Ok(Nothing);
    }

    method Withdraw(call: Call) returns (result: Result<Reply, Revert>)
      requires call.Withdraw?
      modifies this
      ensures (Contents(), result) == Perform(fixed, old(Contents()), call)
    {
      if call.caller != fixed.owner {
        return Err(OnlyOwner);
      }
      if call.amount == 0 {
        return Err(InvalidAmount);
      }
      if call.balance.None? {
        return Err(TokenCallFailed);
      }
      if call.balance.value < call.amount {
        return Err(InsufficientFunds);
      }
      if !call.transferred {
        return Err(TokenCallFailed);
      }
      log := log + [Withdrawn(call.at, call.amount)];
      return Ok(Nothing);
    }

    method Pay(call: Call) returns (result: Result<Reply, Revert>)
      requires call.Pay?
      modifies this
      ensures (Contents(), result) == Perform(fixed, old(Contents()), call)
    {
      if PayFault(Contents(), call).Some? {
        return Err(PayFault(Contents(), call).value);
      }
      var key := (call.mandateId, call.requestId);
      if key in requests {
        if requests[key].payload != PayloadOf(call) {
          return Err(RequestConflict);
        }
        return Ok(Recorded(requests[key].outcome));
      }
      var (rule, reason) := Verdict(Contents(), call);
      if rule != 0 {
        RecordRefusal(call, rule, reason);
        return Ok(Recorded(REFUSED));
      }
      var fault := TokenFault(call.amount, call.balance, call.transferred);
      if fault.Some? {
        return Err(fault.value);
      }
      ExecutePayment(call);
      return Ok(Recorded(EXECUTED));
    }

    method RecordRefusal(call: Call, rule: int, reason: string)
      requires call.Pay? && call.mandateId in mandates && rule != 0 && Verdict(Contents(), call) == (rule, reason)
      modifies this
      ensures Contents() == AfterOutcome(old(Contents()), OutcomeOf(old(Contents()), call))
    {
      hide Verdict, MandateKey, IdOf, RuleName;
      var grant := mandates[call.mandateId];
      sequence := sequence + 1;
      requests := requests[(call.mandateId, call.requestId) :=
        Record(PayloadOf(call), call.caller, call.recipient, call.amount, Headroom(grant), grant.spent, REFUSED, rule,
               reason, sequence)];
      log := log + [Refused(call.at, call.mandateId, call.requestId, call.caller, call.recipient, call.amount, rule,
                            reason, Headroom(grant), grant.spent, sequence)];
    }

    method ExecutePayment(call: Call)
      requires call.Pay? && call.mandateId in mandates && Verdict(Contents(), call).0 == 0
      modifies this
      ensures Contents() == AfterOutcome(old(Contents()), OutcomeOf(old(Contents()), call))
    {
      hide Verdict, MandateKey, IdOf, RuleName;
      var grant := mandates[call.mandateId];
      sequence := sequence + 1;
      var spentAfter := grant.spent + call.amount;
      mandates := mandates[call.mandateId := grant.(spent := spentAfter)];
      var headroom := Headroom(mandates[call.mandateId]);
      requests := requests[(call.mandateId, call.requestId) :=
        Record(PayloadOf(call), call.caller, call.recipient, call.amount, headroom, spentAfter, EXECUTED, 0,
               "Payment executed", sequence)];
      log := log + [Executed(call.at, call.mandateId, call.requestId, call.caller, call.recipient, call.amount,
                             headroom, spentAfter, sequence)];
    }
  }

  /** The fault of a prefix is the fault of the list. */
  lemma {:induction false} FaultStays(c: Fixed, recipients: seq<string>, k: nat)
    requires k <= |recipients| && RecipientsFault(c, recipients[..k]).Some?
    ensures RecipientsFault(c, recipients) == RecipientsFault(c, recipients[..k])
    decreases |recipients|
  {
    if k == |recipients| {
      assert recipients[..k] == recipients;
    } else {
      var front := recipients[..|recipients| - 1];
      assert front[..k] == recipients[..k];
      FaultStays(c, front, k);
    }
  }
}
