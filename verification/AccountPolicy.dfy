/** Which payments the contract executes, which it refuses and why, and what only its owner can do. */
module AccountPolicy {
  import opened Prelude
  import opened Subgraph
  import opened Account
  import opened AccountTheorems

  // -- The five conditions -----------------------------------------------------------------------

  predicate IsLive(s: State, id: nat)
    requires id in s.mandates
  {
    !s.mandates[id].revoked && s.activeMandateId == id
  }

  /** The conditions of a payment, in the order in which they are tried. */
  predicate Meets(s: State, call: Call, number: int)
    requires call.Pay? && call.mandateId in s.mandates
  {
    var grant := s.mandates[call.mandateId];
    match number
    case 1 => IsLive(s, call.mandateId)
    case 2 => call.now < grant.expiresAt
    case 3 => grant.recipients == [] || call.recipient in grant.recipients
    case 4 => call.amount <= grant.perPaymentCap
    case 5 => grant.spent + call.amount <= grant.cumulativeCap
    case _ => true
  }

  /** The first condition that is not met. */
  predicate FailsFirst(s: State, call: Call, number: int)
    requires call.Pay? && call.mandateId in s.mandates
  {
    1 <= number <= 5 && !Meets(s, call, number) && forall k :: 1 <= k < number ==> Meets(s, call, k)
  }

  predicate MeetsAll(s: State, call: Call)
    requires call.Pay? && call.mandateId in s.mandates
  {
    && Meets(s, call, 1) && Meets(s, call, 2) && Meets(s, call, 3) && Meets(s, call, 4) && Meets(s, call, 5)
  }

  predicate IsReason(number: int, reason: string) {
    && (number == 1 ==> reason == "Mandate revoked")
    && (number == 2 ==> reason == "Mandate expired")
    && (number == 3 ==> reason == "Recipient not allowed")
    && (number == 4 ==> reason == "Per-payment cap exceeded")
    && (number == 5 ==> reason == "Cumulative cap exceeded")
  }

  /** A call the contract considers: by the agent of an existing mandate, with nothing missing. */
  predicate IsProper(s: State, call: Call) {
    && call.Pay? && call.mandateId in s.mandates && call.caller == s.mandates[call.mandateId].agent
    && call.requestId != "0x0000000000000000000000000000000000000000000000000000000000000000"
    && call.recipient != "0x0000000000000000000000000000000000000000" && call.amount > 0
  }

  /** The token says the account has the amount, and transfers it. */
  predicate TokenPays(call: Call)
    requires call.Pay? || call.Withdraw?
  {
    call.balance.Some? && call.balance.value >= call.amount && call.transferred
  }

  predicate IsNew(s: State, call: Call)
    requires call.Pay?
  {
    (call.mandateId, call.requestId) !in s.requests
  }

  // -- What a payment does -----------------------------------------------------------------------

  lemma VerdictIsTheFirst(s: State, call: Call)
    requires Limits(s) && call.Pay? && call.mandateId in s.mandates
    ensures var (rule, reason) := Verdict(s, call);
            && (rule == 0 <==> MeetsAll(s, call)) && (rule != 0 ==> FailsFirst(s, call, rule) && IsReason(rule, reason))
  {
  }

  lemma OnlyOneFailsFirst(s: State, call: Call, a: int, b: int)
    requires call.Pay? && call.mandateId in s.mandates && FailsFirst(s, call, a) && FailsFirst(s, call, b)
    ensures a == b && !MeetsAll(s, call)
  {
    assert !Meets(s, call, a) && !Meets(s, call, b);
    hide Meets;
  }

  /** The log grows by this one event. */
  predicate Adds(s: State, s': State, e: Event) {
    s'.log == s.log + [e]
  }

  /** The event repeats the call, and numbers and accounts for it. */
  predicate TellsOf(s: State, call: Call, e: Event)
    requires IsProper(s, call) && IsAction(e)
  {
    var grant := s.mandates[call.mandateId];
    && e.meta == call.at && e.mandateId == call.mandateId && e.requestId == call.requestId && e.agent == call.caller
    && e.recipient == call.recipient && e.sequence == s.sequence + 1
    && (e.Executed? ==> e.amount == call.amount && e.spentAfter == grant.spent + call.amount
                        && e.headroom + e.spentAfter == grant.cumulativeCap)
    && (e.Refused? ==> e.attempted == call.amount && e.spentAfter == grant.spent
                       && e.headroom + e.spentAfter == grant.cumulativeCap)
  }

  /** The outcome is numbered and kept under its request, and an execution spent; nothing else is changed. */
  predicate Accounts(s: State, s': State, call: Call, executed: bool)
    requires IsProper(s, call)
  {
    var grant := s.mandates[call.mandateId];
    && s'.sequence == s.sequence + 1 && s'.nextMandateId == s.nextMandateId && s'.activeMandateId == s.activeMandateId
    && s'.mandates == (if executed then s.mandates[call.mandateId := grant.(spent := grant.spent + call.amount)]
                       else s.mandates)
    && s'.requests.Keys == s.requests.Keys + {(call.mandateId, call.requestId)}
    && forall key :: key in s.requests ==> s'.requests[key] == s.requests[key]
  }

  /**
   * The policy: a new request is executed exactly when the call is proper, meets all five conditions and
   * the token pays; it is refused exactly when the call is proper and a condition fails, with the number
   * and the reason of the first that does; otherwise nothing is recorded.
   */
  lemma NewRequestsFollowThePolicy(c: Fixed, states: seq<State>, calls: seq<Call>, n: nat)
    requires IsCallRun(c, states, calls) && n < |calls| && calls[n].Pay? && IsNew(states[n], calls[n])
    ensures n + 1 < |states|
    ensures var s, s', call := states[n], states[n + 1], calls[n];
            var reply := Perform(c, s, call).1;
            && (reply == Ok(Recorded(EXECUTED)) <==> IsProper(s, call) && MeetsAll(s, call) && TokenPays(call))
            && (reply == Ok(Recorded(REFUSED)) <==> IsProper(s, call) && !MeetsAll(s, call))
            && (reply == Ok(Recorded(EXECUTED)) ==>
                  exists e :: Adds(s, s', e) && e.Executed? && TellsOf(s, call, e))
            && (reply == Ok(Recorded(REFUSED)) ==>
                  exists e :: Adds(s, s', e) && e.Refused? && TellsOf(s, call, e)
                              && FailsFirst(s, call, e.rule) && IsReason(e.rule, e.reason))
            && (reply.Ok? ==> Accounts(s, s', call, reply == Ok(Recorded(EXECUTED))))
            && (reply.Err? ==> s' == s)
  {
    CallRunsAreGood(c, states, calls, n);
    assert states[n + 1] == Perform(c, states[n], calls[n]).0;
    hide IsCallRun, LogGood, Mirrored, RequestsGood;
    NewRequestFollowsThePolicy(c, states[n], calls[n]);
  }

  lemma NewRequestFollowsThePolicy(c: Fixed, s: State, call: Call)
    requires Limits(s) && call.Pay? && IsNew(s, call)
    ensures var (s', reply) := Perform(c, s, call);
            && (reply == Ok(Recorded(EXECUTED)) <==> IsProper(s, call) && MeetsAll(s, call) && TokenPays(call))
            && (reply == Ok(Recorded(REFUSED)) <==> IsProper(s, call) && !MeetsAll(s, call))
            && (reply == Ok(Recorded(EXECUTED)) ==>
                  exists e :: Adds(s, s', e) && e.Executed? && TellsOf(s, call, e))
            && (reply == Ok(Recorded(REFUSED)) ==>
                  exists e :: Adds(s, s', e) && e.Refused? && TellsOf(s, call, e)
                              && FailsFirst(s, call, e.rule) && IsReason(e.rule, e.reason))
            && (reply.Ok? ==> Accounts(s, s', call, reply == Ok(Recorded(EXECUTED))))
            && (reply.Err? ==> s' == s)
  {
    if PayFault(s, call).None? {
      VerdictIsTheFirst(s, call);
      hide Verdict, RecordOf, FailsFirst, IsReason, Meets;
      var e := OutcomeOf(s, call);
      if MeetsAll(s, call) {
        ExecutedWithinCap(s, call);
      }
      assert TellsOf(s, call, e);
      assert Adds(s, AfterOutcome(s, e), e);
    }
    hide Verdict, RecordOf, FailsFirst, IsReason, MeetsAll;
  }

  /** What is asked before, in this order: each refusal is for the first thing that is wrong. */
  lemma PaymentRefusalsAreOrdered(c: Fixed, s: State, call: Call)
    requires Limits(s) && call.Pay?
    ensures var reply := Perform(c, s, call).1;
            var known := call.mandateId in s.mandates;
            var authorized := known && call.caller == s.mandates[call.mandateId].agent;
            var named := authorized
                         && call.requestId != "0x0000000000000000000000000000000000000000000000000000000000000000";
            var addressed := named && call.recipient != "0x0000000000000000000000000000000000000000";
            && (reply == Err(UnknownMandate) <==> !known)
            && (reply == Err(UnauthorizedAgent) <==> known && !authorized)
            && (reply == Err(InvalidRequestId) <==> authorized && !named)
            && (reply == Err(InvalidRecipient) <==> named && !addressed)
            && (reply == Err(InvalidAmount) <==> addressed && call.amount == 0)
            && (IsProper(s, call) <==> addressed && call.amount > 0)
            && (reply == Err(RequestConflict) <==>
                  && IsProper(s, call) && !IsNew(s, call)
                  && s.requests[(call.mandateId, call.requestId)].payload
                     != Payload(call.mandateId, call.caller, call.recipient, call.amount))
            && (reply == Err(InsufficientFunds) <==>
                  && IsProper(s, call) && IsNew(s, call) && MeetsAll(s, call)
                  && call.balance.Some? && call.balance.value < call.amount)
            && (reply == Err(TokenCallFailed) <==>
                  && IsProper(s, call) && IsNew(s, call) && MeetsAll(s, call)
                  && (call.balance.None? || (call.balance.value >= call.amount && !call.transferred)))
  {
    if PayFault(s, call).None? {
      VerdictIsTheFirst(s, call);
    }
    hide Verdict, RecordOf, MeetsAll, Headroom;
  }

  lemma ExecutedWithinCap(s: State, call: Call)
    requires Limits(s) && IsProper(s, call) && MeetsAll(s, call)
    ensures s.mandates[call.mandateId].spent + call.amount <= s.mandates[call.mandateId].cumulativeCap
  {
    assert Meets(s, call, 5);
  }

  /** Outcomes come from payments only: whatever call adds an outcome to the log is a payment of a new request. */
  lemma OutcomesComeFromNewPayments(c: Fixed, states: seq<State>, calls: seq<Call>, n: nat, e: Event)
    requires IsCallRun(c, states, calls) && n < |calls| && IsAction(e)
    requires n + 1 < |states| && e in states[n + 1].log && e !in states[n].log
    ensures calls[n].Pay? && IsNew(states[n], calls[n]) && IsProper(states[n], calls[n])
    ensures Adds(states[n], states[n + 1], e)
  {
    assert states[n + 1] == Perform(c, states[n], calls[n]).0;
    hide IsCallRun, CreateFault, TokenFault, RecordOf, Verdict;
  }

  // -- What a withdrawal and the administration do -----------------------------------------------

  predicate IsBarred(c: Fixed, address: string) {
    address == "0x0000000000000000000000000000000000000000" || address == c.self || address == c.usdc
  }

  /** A mandate as one may be created: an agent of its own, ordered caps, and a list without repetition. */
  predicate IsSane(c: Fixed, g: Grant) {
    && !IsBarred(c, g.agent) && g.agent != c.owner
    && 0 < g.perPaymentCap <= g.cumulativeCap && |g.recipients| <= 20
    && (forall i :: 0 <= i < |g.recipients| ==> !IsBarred(c, g.recipients[i]))
    && (forall i, j :: 0 <= i < j < |g.recipients| ==> g.recipients[i] != g.recipients[j])
  }

  lemma {:induction false} FaultlessLists(c: Fixed, recipients: seq<string>)
    ensures RecipientsFault(c, recipients).None? <==>
            && (forall i :: 0 <= i < |recipients| ==> !IsBarred(c, recipients[i]))
            && (forall i, j :: 0 <= i < j < |recipients| ==> recipients[i] != recipients[j])
  {
    if recipients != [] {
      var front, last := recipients[..|recipients| - 1], recipients[|recipients| - 1];
      FaultlessLists(c, front);
      assert RecipientFault(c, front, last).None? <==> !IsBarred(c, last) && last !in front;
      assert forall i :: 0 <= i < |front| ==> front[i] == recipients[i];
      hide RecipientFault, IsBarred;
    }
  }

  /** The entry is barred, or else one of those before it. */
  predicate IsWrong(c: Fixed, recipients: seq<string>, i: int)
    requires 0 <= i < |recipients|
  {
    IsBarred(c, recipients[i]) || exists j :: 0 <= j < i && recipients[j] == recipients[i]
  }

  /** The first wrong entry decides which fault a list has. */
  lemma {:induction false} FirstWrongEntryDecides(c: Fixed, recipients: seq<string>, i: int)
    requires 0 <= i < |recipients| && IsWrong(c, recipients, i) && forall k :: 0 <= k < i ==> !IsWrong(c, recipients, k)
    ensures RecipientsFault(c, recipients) ==
            Some(if IsBarred(c, recipients[i]) then InvalidRecipients else DuplicateRecipient)
  {
    var front, last := recipients[..|recipients| - 1], recipients[|recipients| - 1];
    assert forall k :: 0 <= k < |front| ==> front[k] == recipients[k];
    assert forall k :: 0 <= k < |front| ==> (IsWrong(c, front, k) <==> IsWrong(c, recipients, k));
    if i < |front| {
      FirstWrongEntryDecides(c, front, i);
    } else {
      FaultlessLists(c, front);
      forall k, l | 0 <= l < k < |front| ensures front[l] != front[k] {
        assert !IsWrong(c, front, k);
      }
      forall k | 0 <= k < |front| ensures !IsBarred(c, front[k]) {
        assert !IsWrong(c, front, k);
      }
      assert RecipientsFault(c, front).None?;
      assert RecipientsFault(c, recipients) == RecipientFault(c, front, last);
      assert last in front <==> exists j :: 0 <= j < i && recipients[j] == last;
    }
  }

  /** Why a creation is refused, in this order; a list that is short enough is refused for its first wrong entry. */
  lemma CreationRefusalsAreOrdered(c: Fixed, s: State, call: Call)
    requires call.CreateMandate?
    ensures var reply := Perform(c, s, call).1;
            var owned := call.caller == c.owner;
            var agented := owned && !IsBarred(c, call.agent) && call.agent != c.owner;
            var capped := agented && 0 < call.perPaymentCap <= call.cumulativeCap;
            var timed := capped && call.now < call.expiresAt <= call.now + 2_592_000;
            && (reply == Err(OnlyOwner) <==> !owned)
            && (reply == Err(InvalidAgent) <==> owned && !agented)
            && (reply == Err(InvalidCaps) <==> agented && !capped)
            && (reply == Err(InvalidExpiry) <==> capped && !timed)
            && (timed && |call.recipients| > 20 ==> reply == Err(InvalidRecipients))
            && (timed && |call.recipients| <= 20 ==>
                  forall i :: 0 <= i < |call.recipients| && IsWrong(c, call.recipients, i)
                              && (forall k :: 0 <= k < i ==> !IsWrong(c, call.recipients, k)) ==>
                    reply == Err(if IsBarred(c, call.recipients[i]) then InvalidRecipients else DuplicateRecipient))
  {
    forall i | 0 <= i < |call.recipients| && IsWrong(c, call.recipients, i)
               && (forall k :: 0 <= k < i ==> !IsWrong(c, call.recipients, k))
      ensures RecipientsFault(c, call.recipients) ==
              Some(if IsBarred(c, call.recipients[i]) then InvalidRecipients else DuplicateRecipient)
    {
      FirstWrongEntryDecides(c, call.recipients, i);
    }
    ListFaults(c, call.recipients);
    hide RecipientsFault, IsWrong;
  }

  lemma ListFaults(c: Fixed, recipients: seq<string>)
    ensures RecipientsFault(c, recipients) in {None, Some(InvalidRecipients), Some(DuplicateRecipient)}
  {
  }

  /** The mandate a creation asks for. */
  function Asked(call: Call): Grant
    requires call.CreateMandate?
  {
    Grant(call.agent, call.perPaymentCap, call.cumulativeCap, 0, call.expiresAt, false, call.recipients)
  }

  /**
   * A mandate is created exactly for the owner, when it is sane and ends within thirty days. It is then
   * the next one and the active one, unspent, and every earlier one is revoked.
   */
  lemma CreationIsExact(c: Fixed, states: seq<State>, calls: seq<Call>, n: nat)
    requires IsCallRun(c, states, calls) && n < |calls| && calls[n].CreateMandate?
    ensures n + 1 < |states|
    ensures var s, s', call := states[n], states[n + 1], calls[n];
            && (Perform(c, s, call).1.Ok? <==>
                  && call.caller == c.owner && IsSane(c, Asked(call))
                     && call.now < call.expiresAt <= call.now + 2_592_000)
            && (Perform(c, s, call).1.Err? ==> s' == s)
            && (Perform(c, s, call).1.Ok? ==>
                  && s'.nextMandateId == s.nextMandateId + 1 && s'.activeMandateId == s.nextMandateId
                  && s.nextMandateId !in s.mandates && s'.mandates.Keys == s.mandates.Keys + {s.nextMandateId}
                  && s'.mandates[s.nextMandateId] == Asked(call)
                  && (forall id :: id in s.mandates ==> s'.mandates[id] == s.mandates[id].(revoked := true))
                  && s'.requests == s.requests && s'.sequence == s.sequence)
  {
    CallRunsAreGood(c, states, calls, n);
    assert states[n + 1] == Perform(c, states[n], calls[n]).0;
    hide IsCallRun, LogGood, Mirrored, RequestsGood;
    FaultlessLists(c, calls[n].recipients);
    hide RecipientsFault;
  }

  /**
   * Only the owner revokes: one existing mandate, no other, and nothing else changes but the log and what
   * is active.
   */
  lemma RevocationIsExact(c: Fixed, s: State, call: Call)
    requires Limits(s) && call.RevokeMandate?
    ensures var (s', reply) := Perform(c, s, call);
            && (reply.Ok? <==> call.caller == c.owner && call.mandateId in s.mandates)
            && (reply.Err? ==> s' == s)
            && (reply.Ok? ==>
                  && s'.mandates == s.mandates[call.mandateId := s.mandates[call.mandateId].(revoked := true)]
                  && (s'.activeMandateId == if s.activeMandateId == call.mandateId then 0 else s.activeMandateId)
                  && s'.requests == s.requests && s'.sequence == s.sequence && s'.nextMandateId == s.nextMandateId
                  && (s.mandates[call.mandateId].revoked ==> s' == s)
                  && (!s.mandates[call.mandateId].revoked ==>
                        Adds(s, s', MandateRevoked(call.at, call.mandateId, s.mandates[call.mandateId].agent))))
  {
    if call.mandateId in s.mandates && s.mandates[call.mandateId].revoked {
      assert s.mandates[call.mandateId := s.mandates[call.mandateId]] == s.mandates;
    }
  }

  /** Only the owner withdraws, a positive amount the token pays; that is logged and changes nothing else. */
  lemma WithdrawalIsExact(c: Fixed, s: State, call: Call)
    requires call.Withdraw?
    ensures var (s', reply) := Perform(c, s, call);
            && (reply.Ok? <==> call.caller == c.owner && call.amount > 0 && TokenPays(call))
            && s' == if reply.Ok? then s.(log := s.log + [Withdrawn(call.at, call.amount)]) else s
  {
  }
}
