/** What the account contract keeps over any sequence of calls, and what its log makes of the index. */
module AccountTheorems {
  import opened Prelude
  import opened Subgraph
  import opened Account

  // -- The invariant -----------------------------------------------------------------------------

  function KeyFor(c: Fixed, id: nat): string {
    MandateKey(c.self, id)
  }

  function MandateOf(c: Fixed, id: nat, g: Grant): Mandate {
    Mandate(c.self, id, g.agent, g.perPaymentCap, g.cumulativeCap, g.spent, g.expiresAt, g.recipients, g.revoked)
  }

  predicate IsOutcome(log: seq<Event>, i: int) {
    0 <= i < |log| && IsAction(log[i])
  }

  ghost predicate LogGood(c: Fixed, s: State) {
    |c.self| == 42 && IsContractLog(s.log) && forall i :: 0 <= i < |s.log| ==> s.log[i].meta.address == c.self
  }

  ghost predicate MirroredAt(c: Fixed, s: State, index: Store, id: nat) {
    && (id in s.mandates <==> KeyFor(c, id) in index.mandates)
    && (id in s.mandates ==> index.mandates[KeyFor(c, id)] == MandateOf(c, id, s.mandates[id]))
  }

  /** The index of the log holds the mandates of the contract. */
  ghost predicate Mirrored(c: Fixed, s: State) {
    forall id: nat :: MirroredAt(c, s, Fold(s.log), id)
  }

  /** Spending is within its cap and at most one mandate, the active one, is not revoked. */
  predicate Limits(s: State) {
    && 1 <= s.nextMandateId
    && (forall id :: id in s.mandates ==>
          1 <= id < s.nextMandateId && s.mandates[id].spent <= s.mandates[id].cumulativeCap)
    && (forall id :: id in s.mandates && !s.mandates[id].revoked ==> id == s.activeMandateId)
    && (s.activeMandateId != 0 ==> s.activeMandateId in s.mandates && !s.mandates[s.activeMandateId].revoked)
  }

  ghost predicate Answered(log: seq<Event>, key: RequestKey) {
    exists i :: IsOutcome(log, i) && KeyOf(log[i]) == key
  }

  /** The records are the outcomes of the log, numbered upwards. */
  ghost predicate RequestsGood(s: State) {
    && (forall i :: IsOutcome(s.log, i) ==>
          && s.log[i].mandateId in s.mandates && s.log[i].sequence <= s.sequence
          && KeyOf(s.log[i]) in s.requests && s.requests[KeyOf(s.log[i])] == RecordOf(s.log[i]))
    && (forall key :: key in s.requests ==> Answered(s.log, key))
    && (forall i, j :: IsOutcome(s.log, i) && IsOutcome(s.log, j) && i < j ==> s.log[i].sequence < s.log[j].sequence)
  }

  ghost predicate Good(c: Fixed, s: State) {
    LogGood(c, s) && Mirrored(c, s) && Limits(s) && RequestsGood(s)
  }

  // -- One more event ----------------------------------------------------------------------------

  lemma FoldSnoc(log: seq<Event>, e: Event)
    ensures Fold(log + [e]) == Handle(Fold(log), e)
  {
    assert (log + [e])[..|log|] == log;
  }

  lemma LogSnoc(c: Fixed, s: State, s': State, e: Event)
    requires LogGood(c, s) && s'.log == s.log + [e] && Follows(s.log, e) && e.meta.address == c.self
    ensures LogGood(c, s')
  {
    hide Follows;
    forall n | 0 <= n < |s'.log| ensures Follows(s'.log[..n], s'.log[n]) {
      if n < |s.log| {
        assert s'.log[..n] == s.log[..n] && Follows(s.log[..n], s.log[n]);
      } else {
        assert s'.log[..n] == s.log;
      }
    }
  }

  /** What the index says of a mandate is what the log says. */
  lemma GrantTellsLog(c: Fixed, s: State, id: nat)
    requires LogGood(c, s) && Mirrored(c, s)
    ensures id in s.mandates <==> Created(s.log, KeyFor(c, id))
    ensures id in s.mandates ==> s.mandates[id].spent == Paid(s.log, KeyFor(c, id))
    ensures id !in s.mandates ==> Paid(s.log, KeyFor(c, id)) == 0
  {
    IndexAgreesWithLog(s.log, KeyFor(c, id));
    assert MirroredAt(c, s, Fold(s.log), id);
    hide Fold, Created, Paid, MandateKey, Transferred, IsContractLog, Mirrored;
  }

  lemma KeysDiffer(c: Fixed, a: nat, b: nat)
    requires |c.self| == 42 && a != b
    ensures KeyFor(c, a) != KeyFor(c, b)
  {
    MandateKeysAgree(c.self, a, c.self, b);
  }

  /** An event without an outcome leaves the records as they are. */
  lemma RequestsFrame(s: State, s': State, e: Event)
    requires RequestsGood(s) && s'.log == s.log + [e] && !IsAction(e)
    requires s'.requests == s.requests && s'.sequence == s.sequence && s.mandates.Keys <= s'.mandates.Keys
    ensures RequestsGood(s')
  {
    hide RecordOf;
    assert forall i :: IsOutcome(s'.log, i) ==> IsOutcome(s.log, i) && s'.log[i] == s.log[i];
    forall key | key in s'.requests ensures Answered(s'.log, key) {
      StillAnswered(s.log, e, key);
    }
  }

  lemma StillAnswered(log: seq<Event>, e: Event, key: RequestKey)
    requires Answered(log, key)
    ensures Answered(log + [e], key)
  {
    var i :| IsOutcome(log, i) && KeyOf(log[i]) == key;
    assert IsOutcome(log + [e], i) && (log + [e])[i] == log[i];
  }

  // -- Revocation --------------------------------------------------------------------------------

  lemma RevocationKeepsGood(c: Fixed, s: State, id: nat, at: Meta)
    requires Good(c, s) && id in s.mandates && at.address == c.self
    ensures Good(c, AfterRevocation(s, id, at))
  {
    hide Mirrored, LogGood, RequestsGood, Limits, Follows;
    var s' := AfterRevocation(s, id, at);
    var e := MandateRevoked(at, id, s.mandates[id].agent);
    RevocationFollows(c, s, e);
    LogSnoc(c, s, s', e);
    RequestsFrame(s, s', e);
    RevocationMirrored(c, s, id, at);
    RevocationWithinLimits(s, id, at);
  }

  lemma RevocationFollows(c: Fixed, s: State, e: Event)
    requires LogGood(c, s) && Mirrored(c, s) && e.MandateRevoked? && e.mandateId in s.mandates
             && e.meta.address == c.self
    ensures Follows(s.log, e)
  {
    GrantTellsLog(c, s, e.mandateId);
    hide Created, Paid, Fold, IsContractLog, MandateKey, Mirrored, MirroredAt;
  }

  lemma RevocationWithinLimits(s: State, id: nat, at: Meta)
    requires Limits(s) && id in s.mandates
    ensures Limits(AfterRevocation(s, id, at))
  {
  }

  lemma RevocationMirrored(c: Fixed, s: State, id: nat, at: Meta)
    requires LogGood(c, s) && Mirrored(c, s) && id in s.mandates && at.address == c.self
    ensures Mirrored(c, AfterRevocation(s, id, at))
  {
    var s' := AfterRevocation(s, id, at);
    FoldSnoc(s.log, MandateRevoked(at, id, s.mandates[id].agent));
    hide Fold, MandateKey, IsContractLog;
    forall other: nat ensures MirroredAt(c, s', Fold(s'.log), other) {
      assert MirroredAt(c, s, Fold(s.log), other) && MirroredAt(c, s, Fold(s.log), id);
      if other != id {
        KeysDiffer(c, other, id);
      }
    }
  }

  // -- Creation ----------------------------------------------------------------------------------

  lemma CreationKeepsGood(c: Fixed, s: State, grant: Grant, at: Meta)
    requires Good(c, s) && at.address == c.self && grant.spent == 0 && !grant.revoked
    requires forall id :: id in s.mandates ==> s.mandates[id].revoked
    ensures Good(c, AfterCreation(s, grant, at))
  {
    var id := s.nextMandateId;
    var s' := AfterCreation(s, grant, at);
    var e := MandateCreated(at, id, grant.agent, grant.perPaymentCap, grant.cumulativeCap, grant.expiresAt,
                            grant.recipients);
    assert id !in s.mandates;
    CreationFollows(c, s, e);
    hide Created, Paid, Fold, IsContractLog, MandateKey, Mirrored, LogGood, RequestsGood, MirroredAt, Follows;
    LogSnoc(c, s, s', e);
    RequestsFrame(s, s', e);
    CreationMirrored(c, s, grant, at);
  }

  lemma CreationFollows(c: Fixed, s: State, e: Event)
    requires LogGood(c, s) && Mirrored(c, s) && RequestsGood(s)
    requires e.MandateCreated? && e.meta.address == c.self && e.mandateId !in s.mandates
    ensures Follows(s.log, e)
  {
    GrantTellsLog(c, s, e.mandateId);
    hide Created, Paid, Fold, IsContractLog, MandateKey, Mirrored, MirroredAt;
    forall i | 0 <= i < |s.log| && s.log[i].Executed? ensures KeyOfEvent(s.log[i]) != KeyOfEvent(e) {
      assert IsOutcome(s.log, i);
      KeysDiffer(c, s.log[i].mandateId, e.mandateId);
    }
  }

  lemma CreationMirrored(c: Fixed, s: State, grant: Grant, at: Meta)
    requires LogGood(c, s) && Mirrored(c, s) && at.address == c.self && grant.spent == 0 && !grant.revoked
    ensures Mirrored(c, AfterCreation(s, grant, at))
  {
    var s', id := AfterCreation(s, grant, at), s.nextMandateId;
    FoldSnoc(s.log, MandateCreated(at, id, grant.agent, grant.perPaymentCap, grant.cumulativeCap, grant.expiresAt,
                                   grant.recipients));
    hide Fold, MandateKey, IsContractLog;
    forall other: nat ensures MirroredAt(c, s', Fold(s'.log), other) {
      assert MirroredAt(c, s, Fold(s.log), other);
      if other != id {
        KeysDiffer(c, other, id);
      }
    }
  }

  // -- An outcome --------------------------------------------------------------------------------

  /** No outcome stands at this place of the chain yet. */
  ghost predicate Unused(log: seq<Event>, at: Meta) {
    forall i :: IsOutcome(log, i) ==> IdOf(log[i].meta) != IdOf(at)
  }

  /** An outcome the contract may add: for a new request, numbered next, and within the cap. */
  ghost predicate Admissible(c: Fixed, s: State, e: Event) {
    && IsAction(e) && e.meta.address == c.self && Unused(s.log, e.meta)
    && e.mandateId in s.mandates && KeyOf(e) !in s.requests && e.sequence == s.sequence + 1
    && (e.Executed? ==>
          e.spentAfter == s.mandates[e.mandateId].spent + e.amount <= s.mandates[e.mandateId].cumulativeCap)
  }

  lemma OutcomeKeepsGood(c: Fixed, s: State, e: Event)
    requires Good(c, s) && Admissible(c, s, e)
    ensures Good(c, AfterOutcome(s, e))
  {
    hide Mirrored, LogGood, RequestsGood, Follows, Unused, RecordOf, Limits;
    OutcomeFollows(c, s, e);
    LogSnoc(c, s, AfterOutcome(s, e), e);
    OutcomeMirrored(c, s, e);
    OutcomeIsRecorded(c, s, e);
    OutcomeWithinLimits(c, s, e);
  }

  lemma OutcomeWithinLimits(c: Fixed, s: State, e: Event)
    requires Limits(s) && Admissible(c, s, e)
    ensures Limits(AfterOutcome(s, e))
  {
    hide Unused, RecordOf, KeyOf;
  }

  lemma OutcomeFollows(c: Fixed, s: State, e: Event)
    requires LogGood(c, s) && Mirrored(c, s) && Admissible(c, s, e)
    ensures Follows(s.log, e)
  {
    hide Created, Paid, Fold, IsContractLog, MandateKey, Mirrored, MirroredAt, IdOf, RecordOf, KeyOf;
    GrantTellsLog(c, s, e.mandateId);
    assert KeyOfEvent(e) == KeyFor(c, e.mandateId);
    hide KeyFor, KeyOfEvent;
    forall i | 0 <= i < |s.log| && IsAction(s.log[i]) ensures IdOf(s.log[i].meta) != IdOf(e.meta) {
      assert IsOutcome(s.log, i);
    }
  }

  lemma OutcomeMirrored(c: Fixed, s: State, e: Event)
    requires LogGood(c, s) && Mirrored(c, s) && Admissible(c, s, e) && Follows(s.log, e)
    ensures Mirrored(c, AfterOutcome(s, e))
  {
    var s', id := AfterOutcome(s, e), e.mandateId;
    FreshAction(s.log, e);
    FoldSnoc(s.log, e);
    hide Fold, MandateKey, IsContractLog, Follows, IdOf, Unused, RecordOf, KeyOf;
    forall other: nat ensures MirroredAt(c, s', Fold(s'.log), other) {
      assert MirroredAt(c, s, Fold(s.log), other) && MirroredAt(c, s, Fold(s.log), id);
      if other != id {
        KeysDiffer(c, other, id);
      }
    }
  }

  lemma OutcomeIsRecorded(c: Fixed, s: State, e: Event)
    requires RequestsGood(s) && Admissible(c, s, e)
    ensures RequestsGood(AfterOutcome(s, e))
  {
    hide RecordOf, Unused;
    var s', n := AfterOutcome(s, e), |s.log|;
    assert s'.log[n] == e && IsOutcome(s'.log, n);
    assert forall i :: IsOutcome(s'.log, i) && i != n ==> IsOutcome(s.log, i) && s'.log[i] == s.log[i];
    forall key | key in s'.requests ensures Answered(s'.log, key) {
      if key != KeyOf(e) {
        StillAnswered(s.log, e, key);
      }
    }
  }

  // -- Any call, any sequence of calls -----------------------------------------------------------

  /** Where the chain puts the events of a call: at this account, and for an outcome at a place of its own. */
  ghost predicate Placed(c: Fixed, s: State, call: Call) {
    match call
    case CreateMandate(_, _, _, _, _, _, _, replaced, created) =>
      replaced.address == c.self && created.address == c.self
    case RevokeMandate(_, _, at) => at.address == c.self
    case Withdraw(_, _, _, _, at) => at.address == c.self
    case Pay(_, _, _, _, _, _, _, _, at) => at.address == c.self && Unused(s.log, at)
  }

  lemma CreateKeepsGood(c: Fixed, s: State, call: Call)
    requires Good(c, s) && call.CreateMandate? && Placed(c, s, call)
    ensures Good(c, AfterCreate(s, call))
  {
    hide Mirrored, LogGood, RequestsGood;
    var previous := s.activeMandateId;
    var grant := Grant(call.agent, call.perPaymentCap, call.cumulativeCap, 0, call.expiresAt, false, call.recipients);
    if previous != 0 {
      RevocationKeepsGood(c, s, previous, call.replaced);
      assert forall id :: id in s.mandates && id != previous ==> s.mandates[id].revoked;
      CreationKeepsGood(c, AfterRevocation(s, previous, call.replaced), grant, call.created);
    } else {
      assert forall id :: id in s.mandates ==> s.mandates[id].revoked;
      CreationKeepsGood(c, s, grant, call.created);
    }
  }

  lemma PayIsAdmissible(c: Fixed, s: State, call: Call)
    requires Limits(s) && call.Pay? && Placed(c, s, call) && call.mandateId in s.mandates
             && (call.mandateId, call.requestId) !in s.requests
    ensures Admissible(c, s, OutcomeOf(s, call))
  {
    hide Unused;
  }

  lemma PayKeepsGood(c: Fixed, s: State, call: Call)
    requires Good(c, s) && call.Pay? && Placed(c, s, call)
    ensures Good(c, AfterPay(s, call).0)
  {
    hide Mirrored, LogGood, RequestsGood, Limits, Admissible, OutcomeOf, Placed, TokenFault, AfterOutcome;
    if PayFault(s, call).None? && (call.mandateId, call.requestId) !in s.requests {
      PayIsAdmissible(c, s, call);
      OutcomeKeepsGood(c, s, OutcomeOf(s, call));
    }
  }

  lemma WithdrawalKeepsGood(c: Fixed, s: State, amount: nat, at: Meta)
    requires Good(c, s) && at.address == c.self
    ensures Good(c, Logged(s, Withdrawn(at, amount)))
  {
    var e := Withdrawn(at, amount);
    var s' := Logged(s, e);
    assert Follows(s.log, e);
    hide Follows, LogGood, RequestsGood;
    LogSnoc(c, s, s', e);
    RequestsFrame(s, s', e);
    FoldSnoc(s.log, e);
    hide Fold, KeyFor;
    assert forall id: nat :: MirroredAt(c, s, Fold(s.log), id) ==> MirroredAt(c, s', Fold(s'.log), id);
  }

  /** Every transaction, whoever calls and whatever the token answers, keeps the contract good. */
  lemma CallsKeepGood(c: Fixed, s: State, call: Call)
    requires Good(c, s) && Placed(c, s, call)
    ensures Good(c, Perform(c, s, call).0)
  {
    hide Good, AfterPay, AfterCreate, AfterRevocation, CreateFault, TokenFault, Logged;
    match call {
      case CreateMandate(_, _, _, _, _, _, _, _, _) => CreateKeepsGood(c, s, call);
      case RevokeMandate(_, id, at) =>
        if id in s.mandates {
          RevocationKeepsGood(c, s, id, at);
        }
      case Withdraw(_, amount, _, _, at) => WithdrawalKeepsGood(c, s, amount, at);
      case Pay(_, _, _, _, _, _, _, _, _) => PayKeepsGood(c, s, call);
    }
  }

  ghost predicate IsCallRun(c: Fixed, states: seq<State>, calls: seq<Call>) {
    && |c.self| == 42 && |states| == |calls| + 1 && states[0] == FRESH
    && forall i :: 0 <= i < |calls| ==>
        Placed(c, states[i], calls[i]) && states[i + 1] == Perform(c, states[i], calls[i]).0
  }

  lemma {:induction false} CallRunsAreGood(c: Fixed, states: seq<State>, calls: seq<Call>, i: nat)
    requires IsCallRun(c, states, calls) && i < |states|
    ensures Good(c, states[i])
  {
    if i == 0 {
      assert Good(c, FRESH) by { FreshIsGood(c); }
    } else {
      CallRunsAreGood(c, states, calls, i - 1);
      hide Good, Placed, Perform;
      CallsKeepGood(c, states[i - 1], calls[i - 1]);
    }
  }

  lemma FreshIsGood(c: Fixed)
    requires |c.self| == 42
    ensures Good(c, FRESH)
  {
    hide KeyFor;
  }

  // -- Main results ------------------------------------------------------------------------------

  /** Records are never rewritten and a mandate never changes hands. */
  ghost predicate Grown(a: State, b: State) {
    && (forall key :: key in a.requests ==> key in b.requests && b.requests[key] == a.requests[key])
    && (forall id :: id in a.mandates ==> id in b.mandates && b.mandates[id].agent == a.mandates[id].agent)
  }

  lemma CallsGrow(c: Fixed, s: State, call: Call)
    requires Limits(s)
    ensures Grown(s, Perform(c, s, call).0)
  {
    hide CreateFault, TokenFault, Verdict, RecordOf, OutcomeOf, Perform;
    match call {
      case CreateMandate(_, _, _, _, _, _, _, _, _) => CreateGrows(c, s, call);
      case Pay(_, _, _, _, _, _, _, _, _) => PayGrows(c, s, call);
      case _ => OwnerCallGrows(c, s, call);
    }
  }

  lemma OwnerCallGrows(c: Fixed, s: State, call: Call)
    requires call.RevokeMandate? || call.Withdraw?
    ensures Grown(s, Perform(c, s, call).0)
  {
  }

  lemma CreateGrows(c: Fixed, s: State, call: Call)
    requires Limits(s) && call.CreateMandate?
    ensures Grown(s, Perform(c, s, call).0)
  {
    hide CreateFault;
  }

  lemma PayGrows(c: Fixed, s: State, call: Call)
    requires call.Pay?
    ensures Grown(s, Perform(c, s, call).0)
  {
    hide TokenFault, Verdict, RecordOf;
  }

  lemma {:induction false} CallRunsGrow(c: Fixed, states: seq<State>, calls: seq<Call>, i: nat, j: nat)
    requires IsCallRun(c, states, calls) && i <= j < |states|
    ensures Grown(states[i], states[j])
    decreases j
  {
    hide IsCallRun, Grown;
    if i == j {
      GrownIsReflexive(states[i]);
    } else {
      CallRunsGrow(c, states, calls, i, j - 1);
      CallGrows(c, states, calls, j - 1);
      GrownIsTransitive(states[i], states[j - 1], states[j]);
    }
  }

  lemma GrownIsReflexive(s: State)
    ensures Grown(s, s)
  {
  }

  lemma GrownIsTransitive(a: State, b: State, d: State)
    requires Grown(a, b) && Grown(b, d)
    ensures Grown(a, d)
  {
  }

  lemma CallGrows(c: Fixed, states: seq<State>, calls: seq<Call>, i: nat)
    requires IsCallRun(c, states, calls) && i + 1 < |states|
    ensures Grown(states[i], states[i + 1])
  {
    CallRunsAreGood(c, states, calls, i);
    hide Placed, Perform, LogGood, Mirrored, RequestsGood, Grown;
    CallsGrow(c, states[i], calls[i]);
  }

  predicate SamePayment(a: Call, b: Call)
    requires a.Pay? && b.Pay?
  {
    && a.caller == b.caller && a.mandateId == b.mandateId && a.requestId == b.requestId
    && a.recipient == b.recipient && a.amount == b.amount
  }

  /**
   * A payment repeated, at whatever later time and after whatever revocation, expiry or withdrawal,
   * returns its first outcome and changes nothing; any other payment under its request ID reverts.
   */
  lemma RepeatedPaymentsChangeNothing(c: Fixed, states: seq<State>, calls: seq<Call>, i: nat, j: nat, again: Call,
                                      outcome: Outcome)
    requires IsCallRun(c, states, calls) && i < j < |states| && calls[i].Pay? && again.Pay?
    requires Perform(c, states[i], calls[i]).1 == Ok(Recorded(outcome))
    ensures SamePayment(calls[i], again) ==> Perform(c, states[j], again) == (states[j], Ok(Recorded(outcome)))
    ensures again.mandateId == calls[i].mandateId && again.requestId == calls[i].requestId
            && !SamePayment(calls[i], again) ==>
              Perform(c, states[j], again).0 == states[j] && Perform(c, states[j], again).1.Err?
  {
    CallRunsGrow(c, states, calls, i + 1, j);
    CallRunsGrow(c, states, calls, i, j);
    assert states[i + 1] == Perform(c, states[i], calls[i]).0;
    hide IsCallRun;
    PaymentIsRecorded(c, states[i], calls[i], outcome);
    hide OutcomeOf, AfterOutcome, TokenFault;
  }

  lemma PaymentIsRecorded(c: Fixed, s: State, call: Call, outcome: Outcome)
    requires call.Pay? && Perform(c, s, call).1 == Ok(Recorded(outcome))
    ensures var (s', key) := (Perform(c, s, call).0, (call.mandateId, call.requestId));
            && PayFault(s, call).None? && key in s'.requests && s'.requests[key].payload == PayloadOf(call)
               && s'.requests[key].outcome == outcome
  {
    hide Verdict, TokenFault;
  }

  /** A request has at most one outcome on the chain. */
  lemma OneOutcomePerRequest(c: Fixed, states: seq<State>, calls: seq<Call>, n: nat, i: nat, j: nat)
    requires IsCallRun(c, states, calls) && n < |states|
    requires IsOutcome(states[n].log, i) && IsOutcome(states[n].log, j)
             && KeyOf(states[n].log[i]) == KeyOf(states[n].log[j])
    ensures i == j
  {
    CallRunsAreGood(c, states, calls, n);
    hide IsCallRun, LogGood, Mirrored, Limits;
    var a, b := states[n].log[i], states[n].log[j];
    assert RecordOf(a) == RecordOf(b);
    assert a.sequence == b.sequence;
  }

  /** What the log says was paid under a mandate never exceeds its cumulative cap. */
  lemma SpendingIsCapped(c: Fixed, states: seq<State>, calls: seq<Call>, n: nat, id: nat)
    requires IsCallRun(c, states, calls) && n < |states|
    ensures id in states[n].mandates ==> Paid(states[n].log, KeyFor(c, id)) <= states[n].mandates[id].cumulativeCap
    ensures id !in states[n].mandates ==> Paid(states[n].log, KeyFor(c, id)) == 0
  {
    CallRunsAreGood(c, states, calls, n);
    GrantTellsLog(c, states[n], id);
    hide IsCallRun, LogGood, Mirrored, RequestsGood, Paid, KeyFor;
  }

  /** The index holds exactly the contract's mandates, as the contract holds them. */
  lemma IndexMirrorsContract(c: Fixed, states: seq<State>, calls: seq<Call>, n: nat, id: nat)
    requires IsCallRun(c, states, calls) && n < |states|
    ensures var index := Fold(states[n].log);
            && (KeyFor(c, id) in index.mandates <==> id in states[n].mandates)
            && (id in states[n].mandates ==> index.mandates[KeyFor(c, id)] == MandateOf(c, id, states[n].mandates[id]))
  {
    CallRunsAreGood(c, states, calls, n);
    assert MirroredAt(c, states[n], Fold(states[n].log), id);
  }

  /** The name the index gives a rule number. */
  predicate IsIndexedRule(number: int, name: string) {
    && (number == 1 ==> name == "MANDATE_REVOKED")
    && (number == 2 ==> name == "MANDATE_EXPIRED")
    && (number == 3 ==> name == "RECIPIENT_NOT_ALLOWED")
    && (number == 4 ==> name == "PER_PAYMENT_CAP")
    && (number == 5 ==> name == "CUMULATIVE_CAP")
    && (number < 1 || number > 5 ==> name == "NONE")
  }

  /** An indexed action tells, in every field, of the request the contract recorded. */
  predicate TellsOfRequest(c: Fixed, key: RequestKey, r: Record, a: Action) {
    && a.account == c.self && a.mandate == KeyFor(c, key.0) && a.requestId == key.1
    && a.agent == r.agent && a.recipient == r.recipient && a.outcome == r.outcome && a.reason == r.reason
    && a.attempted == r.attempted && a.headroom == r.headroom && a.spentAfter == r.spentAfter
       && a.sequence == r.sequence
    && a.transferred == (if r.outcome == EXECUTED then r.attempted else 0)
    && (r.outcome == EXECUTED ==> a.rule == "NONE") && (r.outcome == REFUSED ==> IsIndexedRule(r.rule, a.rule))
  }

  lemma ActionTellsOfRequest(c: Fixed, e: Event)
    requires IsAction(e) && e.meta.address == c.self
    ensures TellsOfRequest(c, KeyOf(e), RecordOf(e), ActionOf(e))
            && ActionOf(e).id == EntityId(e.meta.transactionHash, e.meta.logIndex)
    ensures ActionOf(e).meta == e.meta
  {
  }

  lemma RequestIsIndexed(c: Fixed, s: State, key: RequestKey) returns (id: EntityId)
    requires LogGood(c, s) && RequestsGood(s) && key in s.requests
    ensures id in Fold(s.log).actions && TellsOfRequest(c, key, s.requests[key], Fold(s.log).actions[id])
  {
    hide TellsOfRequest, Fold, RecordOf, ActionOf, IsContractLog, KeyOf, IdOf;
    assert Answered(s.log, key);
    var i :| IsOutcome(s.log, i) && KeyOf(s.log[i]) == key;
    id := IdOf(s.log[i].meta);
    ActionTellsOfRequest(c, s.log[i]);
    OutcomeIsStored(s.log, i);
  }

  lemma ActionIsRecorded(c: Fixed, s: State, id: EntityId) returns (key: RequestKey)
    requires LogGood(c, s) && RequestsGood(s) && id in Fold(s.log).actions
    ensures key in s.requests && TellsOfRequest(c, key, s.requests[key], Fold(s.log).actions[id])
  {
    hide TellsOfRequest, Fold, RecordOf, ActionOf, IsContractLog, KeyOf, IdOf;
    ActionsTellOfTheirEvents(s.log, id);
    var i :| IsOutcomeAt(s.log, i, id) && Fold(s.log).actions[id] == ActionOf(s.log[i]);
    assert IsOutcome(s.log, i);
    key := KeyOf(s.log[i]);
    ActionTellsOfRequest(c, s.log[i]);
  }

  /** The index holds one action for every request the contract recorded, and none else. */
  lemma IndexedActionsAreTheRequests(c: Fixed, states: seq<State>, calls: seq<Call>, n: nat)
    requires IsCallRun(c, states, calls) && n < |states|
    ensures var s, index := states[n], Fold(states[n].log);
            && (forall key :: key in s.requests ==>
                  exists id :: id in index.actions && TellsOfRequest(c, key, s.requests[key], index.actions[id]))
            && (forall id :: id in index.actions ==>
                  exists key :: key in s.requests && TellsOfRequest(c, key, s.requests[key], index.actions[id]))
  {
    CallRunsAreGood(c, states, calls, n);
    var s := states[n];
    assert LogGood(c, s) && RequestsGood(s);
    hide IsCallRun, Good, LogGood, RequestsGood, TellsOfRequest, Fold;
    forall key | key in s.requests
      ensures exists id :: id in Fold(s.log).actions && TellsOfRequest(c, key, s.requests[key], Fold(s.log).actions[id])
    {
      var id := RequestIsIndexed(c, s, key);
    }
    forall id | id in Fold(s.log).actions
      ensures exists key :: key in s.requests && TellsOfRequest(c, key, s.requests[key], Fold(s.log).actions[id])
    {
      var key := ActionIsRecorded(c, s, id);
    }
  }

  /** In a log of the contract every outcome has its own place, so its own action is stored. */
  lemma OutcomeIsStored(log: seq<Event>, i: int)
    requires IsContractLog(log) && IsOutcome(log, i)
    ensures var id := IdOf(log[i].meta);
            id in Fold(log).actions && Fold(log).actions[id] == ActionOf(log[i])
  {
    hide Fold, IdOf, ActionOf, Created, Paid;
    var id := IdOf(log[i].meta);
    assert IsOutcomeAt(log, i, id);
    ActionsAreLogged(log, id);
    ActionsTellOfTheirEvents(log, id);
    var j :| IsOutcomeAt(log, j, id) && Fold(log).actions[id] == ActionOf(log[j]);
    if i < j {
      OutcomesStandApart(log, i, j);
    } else if j < i {
      OutcomesStandApart(log, j, i);
    }
  }

  lemma OutcomesStandApart(log: seq<Event>, i: int, j: int)
    requires IsContractLog(log) && IsOutcome(log, i) && IsOutcome(log, j) && i < j
    ensures IdOf(log[i].meta) != IdOf(log[j].meta)
  {
    hide IdOf, Created, Paid;
    assert Follows(log[..j], log[j]);
    assert log[..j][i] == log[i];
  }
}
