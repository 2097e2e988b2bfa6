/** The index built from the account's events: `subgraph/src/account.ts`. */
module Subgraph {
  import opened Prelude
  import opened Radix

  /** A transaction hash followed by a four-byte log index. */
  datatype EntityId = EntityId(transactionHash: string, logIndex: nat)

  datatype Meta = Meta(address: string, transactionHash: string, logIndex: nat, blockNumber: nat, blockHash: string,
                       timestamp: nat)

  datatype Event =
    | MandateCreated(meta: Meta, mandateId: nat, agent: string, perPaymentCap: nat, cumulativeCap: nat, expiresAt: nat,
                     recipients: seq<string>)
    | MandateRevoked(meta: Meta, mandateId: nat, agent: string)
    | Withdrawn(meta: Meta, amount: nat)
    | Executed(meta: Meta, mandateId: nat, requestId: string, agent: string, recipient: string, amount: nat,
               headroom: nat, spentAfter: nat, sequence: nat)
    | Refused(meta: Meta, mandateId: nat, requestId: string, agent: string, recipient: string, attempted: nat,
              rule: int, reason: string, headroom: nat, spentAfter: nat, sequence: nat)

  datatype Mandate = Mandate(account: string, mandateId: nat, agent: string, perPaymentCap: nat, cumulativeCap: nat,
                             spent: nat, expiresAt: nat, recipients: seq<string>, revoked: bool)

  datatype Outcome = EXECUTED | REFUSED

  datatype Action = Action(
    id: EntityId, account: string, mandate: string, requestId: string, agent: string, recipient: string,
      outcome: Outcome, rule: string, reason: string,
    attempted: nat, transferred: nat, headroom: nat, spentAfter: nat, sequence: nat, meta: Meta)

  datatype LifecycleEvent = LifecycleEvent(id: EntityId, account: string, kind: string, amount: Option<nat>,
                                           mandateId: Option<nat>, agent: Option<string>, meta: Meta)

  datatype Store = Store(mandates: map<string, Mandate>, actions: map<EntityId, Action>, lifecycle: map<EntityId,
                         LifecycleEvent>)

  const EMPTY := Store(map[], map[], map[])

  function MandateKey(account: string, mandateId: nat): string {
    Lower(account) + ":" + Decimal(mandateId)
  }

  function IdOf(meta: Meta): EntityId {
    EntityId(meta.transactionHash, meta.logIndex)
  }

  function RuleName(rule: int): string {
    match rule
    case 1 => "MANDATE_REVOKED"
    case 2 => "MANDATE_EXPIRED"
    case 3 => "RECIPIENT_NOT_ALLOWED"
    case 4 => "PER_PAYMENT_CAP"
    case 5 => "CUMULATIVE_CAP"
    case _ => "NONE"
  }

  // -- What each handler does to the store -------------------------------------------------------

  function FreshMandate(e: Event): Mandate
    requires e.MandateCreated?
  {
    Mandate(e.meta.address, e.mandateId, e.agent, e.perPaymentCap, e.cumulativeCap, 0, e.expiresAt, e.recipients, false)
  }

  function LifecycleOf(meta: Meta, kind: string, amount: Option<nat>, mandateId: Option<nat>,
                       agent: Option<string>): LifecycleEvent {
    LifecycleEvent(IdOf(meta), meta.address, kind, amount, mandateId, agent, meta)
  }

  function SaveLifecycle(s: Store, event: LifecycleEvent): Store {
    s.(lifecycle := s.lifecycle[event.id := event])
  }

  function ActionOf(e: Event): Action
    requires e.Executed? || e.Refused?
  {
    match e
    case Executed(meta, mandateId, requestId, agent, recipient, amount, headroom, spentAfter, sequence) =>
      Action(IdOf(meta), meta.address, MandateKey(meta.address, mandateId), requestId, agent, recipient, EXECUTED,
             "NONE", "Payment executed",
             amount, amount, headroom, spentAfter, sequence, meta)
    case Refused(meta, mandateId, requestId, agent, recipient, attempted, rule, reason, headroom, spentAfter,
                 sequence) =>
      Action(IdOf(meta), meta.address, MandateKey(meta.address, mandateId), requestId, agent, recipient, REFUSED,
             RuleName(rule), reason,
             attempted, 0, headroom, spentAfter, sequence, meta)
  }

  function Handle(s: Store, e: Event): Store {
    match e
    case MandateCreated(meta, mandateId, agent, _, _, _, _) =>
      SaveLifecycle(s.(mandates := s.mandates[MandateKey(meta.address, mandateId) := FreshMandate(e)]),
                    LifecycleOf(meta, "MANDATE_CREATED", None, Some(mandateId), Some(agent)))
    case MandateRevoked(meta, mandateId, agent) =>
      var key := MandateKey(meta.address, mandateId);
      SaveLifecycle(if key in s.mandates then s.(mandates := s.mandates[key := s.mandates[key].(revoked := true)])
                    else s,
                    LifecycleOf(meta, "MANDATE_REVOKED", None, Some(mandateId), Some(agent)))
    case Withdrawn(meta, amount) => SaveLifecycle(s, LifecycleOf(meta, "FUNDS_WITHDRAWN", Some(amount), None, None))
    case Executed(meta, mandateId, _, _, _, _, _, spentAfter, _) =>
      if IdOf(meta) in s.actions then s
      else
        var key := MandateKey(meta.address, mandateId);
        var saved := s.(actions := s.actions[IdOf(meta) := ActionOf(e)]);
        if key in s.mandates then saved.(mandates := s.mandates[key := s.mandates[key].(spent := spentAfter)])
        else saved
    case Refused(meta, _, _, _, _, _, _, _, _, _, _) =>
      if IdOf(meta) in s.actions then s else s.(actions := s.actions[IdOf(meta) := ActionOf(e)])
  }

  /** The entity store and its handlers. */
  class Index {
    var mandates: map<string, Mandate>
    var actions: map<EntityId, Action>
    var lifecycle: map<EntityId, LifecycleEvent>

    constructor ()
      ensures Contents() == EMPTY
    {
      mandates, actions, lifecycle := map[], map[], map[];
    }

    function Contents(): Store
      reads this
    {
      Store(mandates, actions, lifecycle)
    }

    method HandleMandateCreated(e: Event)
      requires e.MandateCreated?
      modifies this
      ensures Contents() == Handle(old(Contents()), e)
    {
      var recipients := [];
      for i := 0 to |e.recipients|
        invariant recipients == e.recipients[..i]
      {
        recipients := recipients + [e.recipients[i]];
      }
      assert recipients == e.recipients;
      var mandate := Mandate(e.meta.address, e.mandateId, e.agent, e.perPaymentCap, e.cumulativeCap, 0, e.expiresAt,
                             recipients, false);
      mandates := mandates[MandateKey(e.meta.address, e.mandateId) := mandate];
      lifecycle := lifecycle[IdOf(e.meta) := LifecycleOf(e.meta, "MANDATE_CREATED", None, Some(e.mandateId),
                                                         Some(e.agent))];
    }

    method HandleMandateRevoked(e: Event)
      requires e.MandateRevoked?
      modifies this
      ensures Contents() == Handle(old(Contents()), e)
    {
      var key := MandateKey(e.meta.address, e.mandateId);
      if key in mandates {
        mandates := mandates[key := mandates[key].(revoked := true)];
      }
      lifecycle := lifecycle[IdOf(e.meta) := LifecycleOf(e.meta, "MANDATE_REVOKED", None, Some(e.mandateId),
                                                         Some(e.agent))];
    }

    method HandleWithdrawn(e: Event)
      requires e.Withdrawn?
      modifies this
      ensures Contents() == Handle(old(Contents()), e)
    {
      lifecycle := lifecycle[IdOf(e.meta) := LifecycleOf(e.meta, "FUNDS_WITHDRAWN", Some(e.amount), None, None)];
    }

    method HandleExecuted(e: Event)
      requires e.Executed?
      modifies this
      ensures Contents() == Handle(old(Contents()), e)
    {
      var id := IdOf(e.meta);
      if id in actions {
        return;
      }
      actions := actions[id := ActionOf(e)];
      var key := MandateKey(e.meta.address, e.mandateId);
      if key in mandates {
        mandates := mandates[key := mandates[key].(spent := e.spentAfter)];
      }
    }

    method HandleRefused(e: Event)
      requires e.Refused?
      modifies this
      ensures Contents() == Handle(old(Contents()), e)
    {
      var id := IdOf(e.meta);
      if id in actions {
        return;
      }
      actions := actions[id := ActionOf(e)];
    }
  }

  // -- The log of the contract -------------------------------------------------------------------

  function Fold(log: seq<Event>): Store {
    if log == [] then EMPTY else Handle(Fold(log[..|log| - 1]), log[|log| - 1])
  }

  function KeyOfEvent(e: Event): string
    requires !e.Withdrawn?
  {
    MandateKey(e.meta.address, e.mandateId)
  }

  /** What the log says was paid under a mandate. */
  function Paid(log: seq<Event>, key: string): nat {
    if log == [] then 0
    else
      var e := log[|log| - 1];
      Paid(log[..|log| - 1], key) + if e.Executed? && KeyOfEvent(e) == key then e.amount else 0
  }

  predicate IsAction(e: Event) {
    e.Executed? || e.Refused?
  }

  predicate Created(log: seq<Event>, key: string) {
    exists i :: 0 <= i < |log| && log[i].MandateCreated? && KeyOfEvent(log[i]) == key
  }

  /** An event the contract can emit after `log`: fresh position, mandates created once, spending accumulated. */
  predicate Follows(log: seq<Event>, e: Event) {
    && (IsAction(e) ==> forall i :: 0 <= i < |log| && IsAction(log[i]) ==> IdOf(log[i].meta) != IdOf(e.meta))
    && (e.MandateCreated? ==> !Created(log, KeyOfEvent(e)) && forall i :: 0 <= i < |log| && log[i].Executed? ==>
          KeyOfEvent(log[i]) != KeyOfEvent(e))
    && (e.MandateRevoked? ==> Created(log, KeyOfEvent(e)))
    && (e.Executed? ==> Created(log, KeyOfEvent(e)) && e.spentAfter == Paid(log, KeyOfEvent(e)) + e.amount)
  }

  predicate IsContractLog(log: seq<Event>) {
    forall n :: 0 <= n < |log| ==> Follows(log[..n], log[n])
  }

  // -- What the index says was paid --------------------------------------------------------------

  function Part(a: Action, key: string): nat {
    if a.outcome == EXECUTED && a.mandate == key then a.transferred else 0
  }

  /** The transferred amounts of the executed actions of a mandate. */
  ghost function Transferred(actions: map<EntityId, Action>, key: string): nat {
    if actions == map[] then 0
    else
      var id :| id in actions;
      Part(actions[id], key) + Transferred(actions - {id}, key)
  }

  lemma {:induction false} TransferredWithout(actions: map<EntityId, Action>, key: string, id: EntityId)
    requires id in actions
    ensures Transferred(actions, key) == Part(actions[id], key) + Transferred(actions - {id}, key)
    decreases |actions|
  {
    var first :| first in actions && Transferred(actions, key) ==
        Part(actions[first], key) + Transferred(actions - {first}, key);
    if first != id {
      TransferredWithout(actions - {first}, key, id);
      TransferredWithout(actions - {id}, key, first);
      assert actions - {first} - {id} == actions - {id} - {first};
    }
  }

  lemma TransferredWith(actions: map<EntityId, Action>, key: string, id: EntityId, a: Action)
    requires id !in actions
    ensures Transferred(actions[id := a], key) == Transferred(actions, key) + Part(a, key)
  {
    TransferredWithout(actions[id := a], key, id);
    assert actions[id := a] - {id} == actions;
  }

  // -- Main results ------------------------------------------------------------------------------

  /** An event adds at most its own action and changes none that is stored. */
  lemma HandleActions(s: Store, e: Event, id: EntityId)
    ensures id in Handle(s, e).actions <==> id in s.actions || (IsAction(e) && IdOf(e.meta) == id)
    ensures id in s.actions ==> Handle(s, e).actions[id] == s.actions[id]
    ensures id !in s.actions && IsAction(e) && IdOf(e.meta) == id ==> Handle(s, e).actions[id] == ActionOf(e)
  {
    hide MandateKey, ActionOf, FreshMandate, LifecycleOf;
  }

  predicate IsOutcomeAt(log: seq<Event>, i: int, id: EntityId) {
    0 <= i < |log| && IsAction(log[i]) && IdOf(log[i].meta) == id
  }

  ghost predicate Emitted(log: seq<Event>, id: EntityId) {
    exists i :: IsOutcomeAt(log, i, id)
  }

  lemma EmittedGrows(log: seq<Event>, id: EntityId)
    requires log != []
    ensures var e := log[|log| - 1];
            Emitted(log, id) <==> Emitted(log[..|log| - 1], id) || (IsAction(e) && IdOf(e.meta) == id)
  {
    hide IdOf, IsAction;
    var front := log[..|log| - 1];
    assert forall i :: IsOutcomeAt(front, i, id) ==> IsOutcomeAt(log, i, id);
    assert forall i :: IsOutcomeAt(log, i, id) && i != |front| ==> IsOutcomeAt(front, i, id);
    assert IsOutcomeAt(log, |front|, id) <==> IsAction(log[|front|]) && IdOf(log[|front|].meta) == id;
  }

  /** After a log the index has the actions of exactly its action events. */
  lemma {:induction false} ActionsAreLogged(log: seq<Event>, id: EntityId)
    ensures id in Fold(log).actions <==> Emitted(log, id)
  {
    if log != [] {
      var front, e := log[..|log| - 1], log[|log| - 1];
      assert Fold(log) == Handle(Fold(front), e);
      hide Fold, Emitted, Handle, IdOf, IsAction;
      ActionsAreLogged(front, id);
      HandleActions(Fold(front), e, id);
      EmittedGrows(log, id);
    }
  }

  /** Each is what its event says, first delivery first. */
  ghost predicate TellsOf(log: seq<Event>, id: EntityId, a: Action) {
    exists i :: IsOutcomeAt(log, i, id) && a == ActionOf(log[i])
  }

  lemma {:induction false} ActionsTellOfTheirEvents(log: seq<Event>, id: EntityId)
    requires id in Fold(log).actions
    ensures TellsOf(log, id, Fold(log).actions[id])
  {
    ActionsAreLogged(log, id);
    var front, e := log[..|log| - 1], log[|log| - 1];
    assert Fold(log) == Handle(Fold(front), e);
    hide Fold, Handle, Emitted, IdOf, ActionOf;
    HandleActions(Fold(front), e, id);
    if id in Fold(front).actions {
      ActionsTellOfTheirEvents(front, id);
      var i :| IsOutcomeAt(front, i, id) && Fold(front).actions[id] == ActionOf(front[i]);
      assert IsOutcomeAt(log, i, id) && front[i] == log[i];
    } else {
      assert IsOutcomeAt(log, |front|, id);
    }
  }

  // -- Lifecycle events --------------------------------------------------------------------------

  /** What is shown of a creation, a revocation or a withdrawal. */
  predicate ShowsLifecycle(e: Event, l: LifecycleEvent)
    requires !IsAction(e)
  {
    && l.id == IdOf(e.meta) && l.account == e.meta.address && l.meta == e.meta
    && match e
       case MandateCreated(_, mandateId, agent, _, _, _, _) =>
         l.kind == "MANDATE_CREATED" && l.mandateId == Some(mandateId) && l.agent == Some(agent) && l.amount.None?
       case MandateRevoked(_, mandateId, agent) =>
         l.kind == "MANDATE_REVOKED" && l.mandateId == Some(mandateId) && l.agent == Some(agent) && l.amount.None?
       case Withdrawn(_, amount) =>
         l.kind == "FUNDS_WITHDRAWN" && l.amount == Some(amount) && l.mandateId.None? && l.agent.None?
       case _ => false
  }

  predicate IsLifecycleAt(log: seq<Event>, i: int, id: EntityId) {
    0 <= i < |log| && !IsAction(log[i]) && IdOf(log[i].meta) == id
  }

  /** The last event at a place is the one shown. */
  predicate IsLastAt(log: seq<Event>, i: int, id: EntityId) {
    IsLifecycleAt(log, i, id) && forall j :: i < j < |log| ==> !IsLifecycleAt(log, j, id)
  }

  lemma HandleLifecycle(s: Store, e: Event, id: EntityId)
    ensures var after := Handle(s, e).lifecycle;
            && (IsAction(e) || IdOf(e.meta) != id ==>
                  (id in after <==> id in s.lifecycle) && (id in after ==> after[id] == s.lifecycle[id]))
            && (!IsAction(e) && IdOf(e.meta) == id ==> id in after && ShowsLifecycle(e, after[id]))
  {
    hide MandateKey, ActionOf, FreshMandate;
  }

  /** The index shows every creation, revocation and withdrawal of the log, and nothing else. */
  lemma {:induction false} LifecycleIsShown(log: seq<Event>, id: EntityId)
    ensures var shown := Fold(log).lifecycle;
            && (id in shown <==> exists i :: IsLifecycleAt(log, i, id))
            && (id in shown ==> exists i :: IsLastAt(log, i, id) && ShowsLifecycle(log[i], shown[id]))
  {
    if log != [] {
      var front, e := log[..|log| - 1], log[|log| - 1];
      assert Fold(log) == Handle(Fold(front), e);
      hide Fold, Handle, IdOf, IsAction, ShowsLifecycle;
      LifecycleIsShown(front, id);
      HandleLifecycle(Fold(front), e, id);
      LifecycleGrows(log, id);
      if id in Fold(front).lifecycle && !IsLifecycleAt(log, |front|, id) {
        var i :| IsLastAt(front, i, id) && ShowsLifecycle(front[i], Fold(front).lifecycle[id]);
        assert IsLastAt(log, i, id) && log[i] == front[i];
      }
    }
  }

  lemma LifecycleGrows(log: seq<Event>, id: EntityId)
    requires log != []
    ensures var front := log[..|log| - 1];
            && (forall i :: IsLifecycleAt(front, i, id) ==> IsLifecycleAt(log, i, id))
            && (forall i :: IsLifecycleAt(log, i, id) && i != |front| ==> IsLifecycleAt(front, i, id))
            && (IsLifecycleAt(log, |front|, id) <==> !IsAction(log[|front|]) && IdOf(log[|front|].meta) == id)
            && (IsLifecycleAt(log, |front|, id) ==> IsLastAt(log, |front|, id))
            && (!IsLifecycleAt(log, |front|, id) ==> forall i :: IsLastAt(front, i, id) ==> IsLastAt(log, i, id))
  {
    hide IdOf, IsAction;
  }

  ghost predicate Agrees(log: seq<Event>, key: string) {
    var s := Fold(log);
    && Transferred(s.actions, key) == Paid(log, key)
    && (Created(log, key) ==> key in s.mandates && s.mandates[key].spent == Paid(log, key))
    && (!Created(log, key) ==> key !in s.mandates && Paid(log, key) == 0)
  }

  lemma PrefixIsContractLog(log: seq<Event>)
    requires IsContractLog(log) && log != []
    ensures IsContractLog(log[..|log| - 1]) && Follows(log[..|log| - 1], log[|log| - 1])
  {
    var front := log[..|log| - 1];
    forall n | 0 <= n < |front| ensures Follows(front[..n], front[n]) {
      assert front[..n] == log[..n];
      assert Follows(log[..n], log[n]);
    }
    hide Follows;
  }

  lemma CreatedGrows(log: seq<Event>, key: string)
    requires log != []
    ensures var e := log[|log| - 1];
            Created(log, key) <==> Created(log[..|log| - 1], key) || (e.MandateCreated? && KeyOfEvent(e) == key)
  {
    hide KeyOfEvent;
    var front := log[..|log| - 1];
    if Created(front, key) {
      var i :| 0 <= i < |front| && front[i].MandateCreated? && KeyOfEvent(front[i]) == key;
      assert log[i].MandateCreated? && KeyOfEvent(log[i]) == key;
    }
    if Created(log, key) && !(log[|log| - 1].MandateCreated? && KeyOfEvent(log[|log| - 1]) == key) {
      var i :| 0 <= i < |log| && log[i].MandateCreated? && KeyOfEvent(log[i]) == key;
      assert front[i].MandateCreated? && KeyOfEvent(front[i]) == key;
    }
  }

  /** What one event does to the amounts of one mandate. */
  lemma HandleAmounts(s: Store, e: Event, key: string)
    requires IsAction(e) ==> IdOf(e.meta) !in s.actions
    ensures var s', here := Handle(s, e), !e.Withdrawn? && KeyOfEvent(e) == key;
            && Transferred(s'.actions, key) ==
               Transferred(s.actions, key) + (if e.Executed? && here then e.amount else 0)
            && (key in s'.mandates <==> key in s.mandates || (e.MandateCreated? && here))
            && (key in s'.mandates ==> s'.mandates[key].spent == (if e.MandateCreated?
                                                                  && here then 0 else if e.Executed?
                                                                  && here then e.spentAfter else s.mandates[key].spent))
  {
    if IsAction(e) {
      TransferredWith(s.actions, key, IdOf(e.meta), ActionOf(e));
    }
    hide MandateKey, Transferred, IdOf, RuleName;
  }

  /** No event pays under a mandate before it is created. */
  lemma {:induction false} NothingPaidBefore(log: seq<Event>, key: string)
    requires forall i :: 0 <= i < |log| && log[i].Executed? ==> KeyOfEvent(log[i]) != key
    ensures Paid(log, key) == 0
  {
    if log != [] {
      NothingPaidBefore(log[..|log| - 1], key);
    }
  }

  /**
   * The index agrees with the log: after any log the contract can emit, the spent amount of a mandate is
   * what the log paid under it, and is the sum of what its executed actions transferred.
   */
  lemma {:induction false} IndexAgreesWithLog(log: seq<Event>, key: string)
    requires IsContractLog(log)
    ensures Agrees(log, key)
  {
    if log == [] {
      assert !Created(log, key);
    } else {
      var front, e := log[..|log| - 1], log[|log| - 1];
      PrefixIsContractLog(log);
      IndexAgreesWithLog(front, key);
      CreatedGrows(log, key);
      if IsAction(e) {
        FreshAction(front, e);
      }
      if e.MandateCreated? && KeyOfEvent(e) == key {
        NothingPaidBefore(front, key);
      }
      HandleAmounts(Fold(front), e, key);
      hide MandateKey, Created, Transferred, IdOf, IsContractLog, Handle;
    }
  }

  predicate Revoked(log: seq<Event>, key: string) {
    log != [] && (Revoked(log[..|log| - 1], key)
                  || (log[|log| - 1].MandateRevoked? && KeyOfEvent(log[|log| - 1]) == key))
  }

  predicate IsCreationAt(log: seq<Event>, i: int, key: string) {
    0 <= i < |log| && log[i].MandateCreated? && KeyOfEvent(log[i]) == key
  }

  /** A mandate as created, with what was paid under it and whether it was revoked. */
  ghost predicate IsHistory(log: seq<Event>, key: string, m: Mandate) {
    exists i :: IsCreationAt(log, i, key)
      && m == FreshMandate(log[i]).(spent := Paid(log, key), revoked := Revoked(log, key))
  }

  /** Every stored mandate is its creation, its payments and its revocation. */
  lemma {:induction false} MandatesAreTheirHistories(log: seq<Event>, key: string)
    requires IsContractLog(log) && Created(log, key)
    ensures key in Fold(log).mandates && IsHistory(log, key, Fold(log).mandates[key])
  {
    var front, e := log[..|log| - 1], log[|log| - 1];
    PrefixIsContractLog(log);
    CreatedGrows(log, key);
    assert Fold(log) == Handle(Fold(front), e);
    if e.MandateCreated? && KeyOfEvent(e) == key {
      FreshHistory(log, key);
    } else {
      MandatesAreTheirHistories(front, key);
      if IsAction(e) {
        FreshAction(front, e);
      }
      hide Created, IsContractLog, Fold;
      HistoryGoesOn(log, Fold(front), key);
    }
  }

  lemma FreshHistory(log: seq<Event>, key: string)
    requires IsContractLog(log) && log != [] && IsCreationAt(log, |log| - 1, key)
    ensures key in Fold(log).mandates && IsHistory(log, key, Fold(log).mandates[key])
  {
    var front, e := log[..|log| - 1], log[|log| - 1];
    PrefixIsContractLog(log);
    NothingPaidBefore(front, key);
    NothingRevokedBefore(front, key);
    assert Fold(log) == Handle(Fold(front), e);
    hide MandateKey, Created, Follows, IsContractLog, Fold;
    assert IsCreationAt(log, |log| - 1, key);
  }

  lemma HistoryGoesOn(log: seq<Event>, s: Store, key: string)
    requires log != [] && Follows(log[..|log| - 1], log[|log| - 1])
    requires var e := log[|log| - 1];
             !(e.MandateCreated? && KeyOfEvent(e) == key) && (IsAction(e) ==> IdOf(e.meta) !in s.actions)
    requires key in s.mandates && IsHistory(log[..|log| - 1], key, s.mandates[key])
    ensures var s' := Handle(s, log[|log| - 1]);
            key in s'.mandates && IsHistory(log, key, s'.mandates[key])
  {
    var front, e := log[..|log| - 1], log[|log| - 1];
    hide MandateKey, Created, RuleName, IdOf;
    var i :| IsCreationAt(front, i, key)
        && s.mandates[key] == FreshMandate(front[i]).(spent := Paid(front, key), revoked := Revoked(front, key));
    assert IsCreationAt(log, i, key) && log[i] == front[i];
  }

  lemma {:induction false} NothingRevokedBefore(log: seq<Event>, key: string)
    requires IsContractLog(log) && !Created(log, key)
    ensures !Revoked(log, key)
  {
    if log != [] {
      PrefixIsContractLog(log);
      CreatedGrows(log, key);
      NothingRevokedBefore(log[..|log| - 1], key);
    }
  }

  lemma FreshAction(log: seq<Event>, e: Event)
    requires Follows(log, e) && IsAction(e)
    ensures IdOf(e.meta) !in Fold(log).actions
  {
    hide Created, Paid, Fold, IdOf, KeyOfEvent;
    ActionsAreLogged(log, IdOf(e.meta));
  }

  /** One delivery to the index: the next event of the log, or an outcome delivered before. */
  datatype Delivery = Next | Again(position: nat)

  predicate IsSchedule(log: seq<Event>, deliveries: seq<Delivery>) {
    deliveries == [] ||
    (var front, d := deliveries[..|deliveries| - 1], deliveries[|deliveries| - 1];
     && IsSchedule(log, front)
     && match d
        case Next => Delivered(front) < |log|
        case Again(k) => k < Delivered(front) <= |log| && IsAction(log[k]))
  }

  /** How much of the log a schedule has delivered. */
  function Delivered(deliveries: seq<Delivery>): nat {
    if deliveries == [] then 0
    else
      var last := deliveries[|deliveries| - 1];
      Delivered(deliveries[..|deliveries| - 1]) + if last.Next? then 1 else 0
  }

  function Deliver(log: seq<Event>, deliveries: seq<Delivery>): Store
    requires IsSchedule(log, deliveries)
  {
    if deliveries == [] then EMPTY
    else
      var front, d := deliveries[..|deliveries| - 1], deliveries[|deliveries| - 1];
      Handle(Deliver(log, front), log[if d.Next? then Delivered(front) else d.position])
  }

  lemma {:induction false} DeliveredWithin(log: seq<Event>, deliveries: seq<Delivery>)
    requires IsSchedule(log, deliveries)
    ensures Delivered(deliveries) <= |log|
  {
    if deliveries != [] {
      DeliveredWithin(log, deliveries[..|deliveries| - 1]);
    }
  }

  /** Delivering outcomes again, any number of times and in any order, changes nothing. */
  lemma {:induction false} RedeliveriesChangeNothing(log: seq<Event>, deliveries: seq<Delivery>)
    requires IsSchedule(log, deliveries)
    ensures Delivered(deliveries) <= |log|
    ensures Deliver(log, deliveries) == Fold(log[..Delivered(deliveries)])
  {
    DeliveredWithin(log, deliveries);
    if deliveries != [] {
      var front, d := deliveries[..|deliveries| - 1], deliveries[|deliveries| - 1];
      RedeliveriesChangeNothing(log, front);
      var n := Delivered(front);
      if d.Next? {
        assert log[..n + 1][..n] == log[..n];
        hide Handle;
      } else {
        KnownActionStays(log[..n], d.position);
        hide Handle, Fold;
      }
    }
  }

  lemma KnownActionStays(log: seq<Event>, position: nat)
    requires position < |log| && IsAction(log[position])
    ensures Handle(Fold(log), log[position]) == Fold(log)
  {
    hide Fold, IdOf;
    assert IsOutcomeAt(log, position, IdOf(log[position].meta));
    ActionsAreLogged(log, IdOf(log[position].meta));
  }

  /**
   * A creation delivered again is different: it leaves the index as it is exactly when its mandate has
   * spent nothing and is not revoked, and otherwise it resets both.
   */
  lemma RecreationResets(s: Store, e: Event)
    requires e.MandateCreated? && KeyOfEvent(e) in s.mandates
    requires s.mandates[KeyOfEvent(e)].(spent := 0, revoked := false) == FreshMandate(e)
    requires IdOf(e.meta) in s.lifecycle
             && s.lifecycle[IdOf(e.meta)] ==
                LifecycleOf(e.meta, "MANDATE_CREATED", None, Some(e.mandateId), Some(e.agent))
    ensures Handle(s, e) == s <==> s.mandates[KeyOfEvent(e)].spent == 0 && !s.mandates[KeyOfEvent(e)].revoked
    ensures Handle(s, e).mandates[KeyOfEvent(e)].spent == 0
  {
    hide MandateKey;
    var key, id := KeyOfEvent(e), IdOf(e.meta);
    hide KeyOfEvent, IdOf;
    assert s.lifecycle[id := s.lifecycle[id]] == s.lifecycle;
    assert s.mandates[key := s.mandates[key]] == s.mandates;
  }

  /** The reader's check of one record. */
  predicate TransferConsistent(a: Action) {
    && (a.outcome == EXECUTED ==> a.transferred == a.attempted)
    && (a.outcome == REFUSED ==> a.transferred == 0)
  }

  /** Whatever events arrive, every stored action passes the reader's transfer checks, under its own id. */
  lemma {:induction false} StoredActionsPass(log: seq<Event>, id: EntityId)
    requires id in Fold(log).actions
    ensures TransferConsistent(Fold(log).actions[id]) && Fold(log).actions[id].id == id
  {
    var front, e := log[..|log| - 1], log[|log| - 1];
    HandleActions(Fold(front), e, id);
    assert Fold(log) == Handle(Fold(front), e);
    hide Handle, MandateKey, RuleName;
    if id in Fold(front).actions {
      StoredActionsPass(front, id);
    }
  }

  /** Writer and reader name the same mandate exactly when account and mandate are the same. */
  lemma MandateKeysAgree(a: string, m: nat, b: string, n: nat)
    requires |a| == 42 && |b| == 42
    ensures MandateKey(a, m) == MandateKey(b, n) <==> SameText(a, b) && m == n
  {
    DecimalRoundTrip(m);
    DecimalRoundTrip(n);
    hide Decimal, ParseDecimal;
    assert MandateKey(a, m)[..42] == Lower(a) && MandateKey(b, n)[..42] == Lower(b);
    assert MandateKey(a, m)[43..] == Decimal(m) && MandateKey(b, n)[43..] == Decimal(n);
  }
}
