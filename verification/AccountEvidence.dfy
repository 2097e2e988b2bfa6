/** The reader over the index of a real contract: its assumptions on the index hold of every run of calls. */
module AccountEvidence {
  import opened Prelude
  import opened Radix
  import opened Subgraph
  import opened Account
  import opened AccountTheorems
  import opened Evidence

  /** The stored actions in the order of the log. */
  function ActionsOf(log: seq<Event>): seq<Action> {
    if log == [] then []
    else
      var e := log[|log| - 1];
      ActionsOf(log[..|log| - 1]) + if IsAction(e) then [ActionOf(e)] else []
  }

  // -- They are the actions of the index ---------------------------------------------------------

  ghost predicate IsLogged(log: seq<Event>, a: Action) {
    exists i :: IsOutcome(log, i) && a == ActionOf(log[i])
  }

  lemma LoggedGrows(log: seq<Event>, a: Action)
    requires log != []
    ensures var e := log[|log| - 1];
            IsLogged(log, a) <==> IsLogged(log[..|log| - 1], a) || (IsAction(e) && a == ActionOf(e))
  {
    hide ActionOf, IsAction;
    var front := log[..|log| - 1];
    assert forall i :: IsOutcome(front, i) ==> IsOutcome(log, i) && front[i] == log[i];
    assert forall i :: IsOutcome(log, i) && i != |front| ==> IsOutcome(front, i) && front[i] == log[i];
    assert IsOutcome(log, |front|) <==> IsAction(log[|front|]);
  }

  lemma {:induction false} ActionsOfIsLogged(log: seq<Event>, a: Action)
    ensures a in ActionsOf(log) <==> IsLogged(log, a)
  {
    if log != [] {
      var front, e := log[..|log| - 1], log[|log| - 1];
      assert a in ActionsOf(log) <==> a in ActionsOf(front) || (IsAction(e) && a == ActionOf(e));
      hide ActionOf, ActionsOf, IsAction, IsLogged;
      ActionsOfIsLogged(front, a);
      LoggedGrows(log, a);
    }
  }

  lemma OutcomesDiffer(log: seq<Event>, i: int, j: int)
    requires IsContractLog(log) && IsOutcome(log, i) && IsOutcome(log, j) && i != j
    ensures IdOf(log[i].meta) != IdOf(log[j].meta)
  {
    var a, b := if i < j then i else j, if i < j then j else i;
    assert Follows(log[..b], log[b]);
    assert log[..b][a] == log[a];
  }

  /** The listed actions are exactly the stored ones. */
  lemma ListedIsStored(log: seq<Event>, a: Action)
    requires IsContractLog(log)
    ensures a in ActionsOf(log) <==> a.id in Fold(log).actions && Fold(log).actions[a.id] == a
  {
    ActionsOfIsLogged(log, a);
    ActionsAreLogged(log, a.id);
    hide Fold, ActionsOf, Follows, IsContractLog;
    if a in ActionsOf(log) {
      var i :| IsOutcome(log, i) && a == ActionOf(log[i]);
      assert IsOutcomeAt(log, i, a.id);
      ActionsTellOfTheirEvents(log, a.id);
      var j :| IsOutcomeAt(log, j, a.id) && Fold(log).actions[a.id] == ActionOf(log[j]);
      if i != j {
        OutcomesDiffer(log, i, j);
      }
    }
    if a.id in Fold(log).actions && Fold(log).actions[a.id] == a {
      ActionsTellOfTheirEvents(log, a.id);
      var j :| IsOutcomeAt(log, j, a.id) && Fold(log).actions[a.id] == ActionOf(log[j]);
      assert IsOutcome(log, j);
    }
  }

  // -- In ascending order, and growing -----------------------------------------------------------

  ghost predicate Numbered(log: seq<Event>) {
    forall i, j :: IsOutcome(log, i) && IsOutcome(log, j) && i < j ==> log[i].sequence < log[j].sequence
  }

  lemma {:induction false} ActionsAscend(log: seq<Event>)
    requires Numbered(log)
    ensures Ascending(ActionsOf(log))
  {
    if log != [] {
      var front, e := log[..|log| - 1], log[|log| - 1];
      assert forall i :: IsOutcome(front, i) ==> IsOutcome(log, i) && front[i] == log[i];
      ActionsAscend(front);
      if IsAction(e) {
        assert IsOutcome(log, |front|);
        forall a | a in ActionsOf(front) ensures a.sequence < e.sequence {
          ActionsOfIsLogged(front, a);
        }
        assert ActionsOf(log) == ActionsOf(front) + [ActionOf(e)];
        hide ActionsOf, Numbered;
        LastAscends(ActionsOf(front), ActionOf(e));
      }
    }
  }

  lemma LastAscends(s: seq<Action>, last: Action)
    requires Ascending(s) && forall a :: a in s ==> a.sequence < last.sequence
    ensures Ascending(s + [last])
  {
    assert forall i :: 0 <= i < |s| ==> s[i] in s;
  }

  lemma {:induction false} FilterAscends(s: seq<Action>, keep: Action -> bool)
    requires Ascending(s)
    ensures Ascending(Filter(s, keep))
  {
    if s != [] {
      FilterAscends(s[1..], keep);
      var rest := Filter(s[1..], keep);
      assert Filter(s, keep) == if keep(s[0]) then [s[0]] + rest else rest;
      forall i | 0 <= i < |rest| ensures s[0].sequence < rest[i].sequence {
        assert rest[i] in s[1..];
      }
      hide Filter;
      FirstAscends(s[0], rest);
    }
  }

  lemma FirstAscends(first: Action, rest: seq<Action>)
    requires Ascending(rest) && forall i :: 0 <= i < |rest| ==> first.sequence < rest[i].sequence
    ensures Ascending([first] + rest)
  {
  }

  lemma {:induction false} ActionsOfGrows(log: seq<Event>, more: seq<Event>)
    requires log <= more
    ensures ActionsOf(log) <= ActionsOf(more)
    decreases |more|
  {
    if |log| == |more| {
      assert log == more;
    } else {
      var front := more[..|more| - 1];
      assert log <= front;
      ActionsOfGrows(log, front);
    }
  }

  lemma CallsAppend(c: Fixed, s: State, call: Call)
    ensures s.log <= Perform(c, s, call).0.log
  {
    hide CreateFault, TokenFault, PayFault, OutcomeOf;
  }

  lemma {:induction false} LogsGrow(c: Fixed, states: seq<State>, calls: seq<Call>, i: nat, j: nat)
    requires IsCallRun(c, states, calls) && i <= j < |states|
    ensures states[i].log <= states[j].log
    decreases j
  {
    if i < j {
      LogsGrow(c, states, calls, i, j - 1);
      hide Placed, Perform;
      CallsAppend(c, states[j - 1], calls[j - 1]);
    }
  }

  // -- The mandate filter ------------------------------------------------------------------------

  /** The key a reader asks for selects the outcomes of that mandate, as the handlers wrote them. */
  lemma MandateFilterSelects(e: Event, scope: AccountScope, filter: ActivityFilter, id: nat)
    requires IsAction(e) && |e.meta.address| == 42 && |scope.account| == 42 && filter.mandateId == Some(Decimal(id))
    ensures IsWanted(scope, filter, ActionOf(e)) <==>
            IsWanted(scope.(mandateId := None), filter.(mandateId := None), ActionOf(e)) && e.mandateId == id
  {
    MandateKeysAgree(e.meta.address, e.mandateId, scope.account, id);
    hide Lower, Decimal;
  }

  // -- Main results ------------------------------------------------------------------------------

  /** When the reader sends its k-th request the contract has reached the state `at(k)` of a run. */
  ghost predicate IsTiming(states: seq<State>, at: nat -> nat) {
    (forall k: nat :: at(k) < |states|) && (forall k: nat :: at(k) <= at(k + 1))
  }

  function IndexAt(states: seq<State>, at: nat -> nat, k: nat): seq<Action> {
    if at(k) < |states| then ActionsOf(states[at(k)].log) else []
  }

  /** Whatever the contract does between the requests, its index grows as the reader needs. */
  lemma ContractIndexGrows(c: Fixed, states: seq<State>, calls: seq<Call>, at: nat -> nat, scope: AccountScope,
                           filter: ActivityFilter)
    requires IsCallRun(c, states, calls) && IsTiming(states, at)
    ensures GrowingIndex((k: nat) => IndexAt(states, at, k), scope, filter)
  {
    hide IsCallRun, ActionsOf, BuildActivityQuery, Ascending, Good, Matches;
    forall k: nat ensures IndexAt(states, at, k) <= IndexAt(states, at, k + 1) {
      assert at(k) < |states| && at(k + 1) < |states| && at(k) <= at(k + 1);
      LogsGrow(c, states, calls, at(k), at(k + 1));
      ActionsOfGrows(states[at(k)].log, states[at(k + 1)].log);
    }
    forall k: nat ensures Ascending(Wanted(IndexAt(states, at, k), scope, filter)) {
      assert at(k) < |states|;
      WantedAscends(c, states, calls, at(k), scope, filter);
    }
    forall k: nat, a | a in IndexAt(states, at, k) ensures TransferConsistent(a) {
      ActionsOfIsLogged(states[at(k)].log, a);
    }
  }

  lemma WantedAscends(c: Fixed, states: seq<State>, calls: seq<Call>, n: nat, scope: AccountScope,
                      filter: ActivityFilter)
    requires IsCallRun(c, states, calls) && n < |states|
    ensures Ascending(Wanted(ActionsOf(states[n].log), scope, filter))
  {
    CallRunsAreGood(c, states, calls, n);
    hide IsCallRun, ActionsOf, BuildActivityQuery, Ascending, Matches, LogGood, Mirrored, Limits;
    assert Numbered(states[n].log);
    ActionsAscend(states[n].log);
    FilterAscends(ActionsOf(states[n].log), (a: Action) => IsWanted(scope, filter, a));
  }

  /**
   * From contract to answer: over a contract that goes on paying while the reader pages, the evidence is
   * exactly the newest hundred wanted outcomes of the log as of the first request.
   */
  lemma EvidenceOfContract(c: Fixed, states: seq<State>, calls: seq<Call>, at: nat -> nat, graph: Graph,
                           scope: AccountScope, filter: ActivityFilter)
    requires IsCallRun(c, states, calls) && IsTiming(states, at)
    requires AnswersFrom(graph, (k: nat) => IndexAt(states, at, k))
    ensures var newest := Newest(IndexAt(states, at, 0), scope, filter, MAX_SEQUENCE);
            var page := Collect(scope, filter, graph, 0, [], None);
            && page.Page? && page.records == newest[..Min(|newest|, 100)]
            && (page.partial <==> |newest| >= 100)
            && page.cursor == (if page.partial then Cursor(page.records) else None)
  {
    hide IsCallRun, AnswersFrom, GrowingIndex, IndexAt, Newest, Collect;
    ContractIndexGrows(c, states, calls, at, scope, filter);
    EvidenceIsTheNewestHundred(graph, (k: nat) => IndexAt(states, at, k), scope, filter);
  }
}
