/** Which rows have been sent: what a state says of the network, and what a blocked row does. */
module ProtocolSent {
  import opened Prelude
  import opened Amount
  import opened Instruction
  import opened Payments
  import opened Envelope
  import opened Reconcile
  import opened Journal
  import opened Worker
  import opened Protocol
  import opened ProtocolMoves
  import opened ProtocolInvariant
  import opened ProtocolTheorems

  // -- States and phases past the broadcast ------------------------------------------------------

  predicate IsPast(state: State) {
    state in {Submitted, Unknown, Executed, Refused, TechnicalFailure}
  }

  predicate PastSending(phase: Phase) {
    || phase.MarkingBroadcast? || phase.MarkingError? || phase.Reconciling?
    || (phase.Finishing? && (IsPast(phase.result.state) || phase.retry.Some?))
  }

  predicate Knows(b: Busy) {
    IsPast(b.view.state) || PastSending(b.phase)
  }

  ghost predicate WasSent(w: World, id: RowId) {
    exists raw :: (id, raw) in w.sent
  }

  ghost predicate SentKept(w: World) {
    && (forall id :: id in w.tables.rows && IsPast(w.tables.rows[id].state) ==> WasSent(w, id))
    && (forall worker :: worker in w.workers && Knows(w.workers[worker]) ==> WasSent(w, w.workers[worker].view.id))
  }

  // -- One event ---------------------------------------------------------------------------------

  lemma RouteStaysBefore(links: Links, chain: Chain, job: Row, deps: Dependencies, present: bool)
    requires GoodRow(links, chain, job) && job.leaseOwner.Some? && Resolves(links, job, deps) && !IsPast(job.state)
    ensures var next := Route(job, deps, present);
            next.Some? && !PastSending(next.value)
  {
    RouteIsGood(links, chain, job, deps, present);
    hide Resolves, PaysRow, Shown, StartReconcile, StoredIntent;
  }

  /** Only a broadcast leads past it. */
  lemma ThoughtStaysBefore(links: Links, w: World, worker: WorkerId, answer: Answer)
    requires Acting(links, w, worker, answer) && !answer.Crashed?
    requires var b := w.workers[worker]; !Writes(b.phase) && !Knows(b) && !b.phase.Broadcasting?
    ensures var next := Think(w.tables, links, worker, w.workers[worker].phase, answer);
            next.Some? ==> !PastSending(next.value)
  {
    var b := w.workers[worker];
    if b.phase.Routing? {
      hide Think, Later, Resolves, PastSending, GoodRow, Route;
      RouteStaysBefore(links, w.chain, b.phase.job, b.phase.deps, answer.present);
      assert Think(w.tables, links, worker, b.phase, answer) ==
             Route(b.phase.job, b.phase.deps,
                   answer.present) by { RoutingRoutes(w.tables, links, worker, b.phase, answer); }
    } else {
      assert Expects(b.phase, answer);
      OtherThoughtStaysBefore(w.tables, links, worker, b.phase, answer);
    }
  }

  lemma RoutingRoutes(t: Tables, links: Links, worker: WorkerId, phase: Phase, answer: Answer)
    requires Expects(phase, answer) && !answer.Crashed? && phase.Routing?
    ensures Think(t, links, worker, phase, answer) == Route(phase.job, phase.deps, answer.present)
  {
    hide Route;
  }

  lemma OtherThoughtStaysBefore(t: Tables, links: Links, worker: WorkerId, phase: Phase, answer: Answer)
    requires Expects(phase, answer) && !answer.Crashed? && !Writes(phase) && !PastSending(phase) && !phase.Broadcasting?
             && !phase.Routing?
    ensures var next := Think(t, links, worker, phase, answer);
            next.Some? ==> !PastSending(next.value)
  {
    hide Build, ParseInstruction, ParseUsdc, ReadForSigning, NextNonce;
  }

  /** No statement moves a row past the broadcast before its worker is. */
  lemma StatementStaysBefore(links: Links, w: World, worker: WorkerId)
    requires worker in w.workers && Fenced(links, w, worker) && Writes(w.workers[worker].phase)
    requires Statement(w.tables, worker, w.workers[worker].phase).Some?
    ensures var after, id := Statement(w.tables, worker, w.workers[worker].phase).value, w.workers[worker].view.id;
            && (forall other :: other in after.rows && other != id ==>
                  other in w.tables.rows && after.rows[other] == w.tables.rows[other])
            && (id in after.rows && IsPast(after.rows[id].state) ==>
                  IsPast(w.tables.rows[id].state) || PastSending(w.workers[worker].phase))
  {
    hide ParseUsdc, GoodRow, Later, GoodResult, Resolves, PaysRow, IntentOf, Live;
  }

  lemma NextStaysBefore(phase: Phase)
    requires Writes(phase) && !PastSending(phase)
    ensures AfterStatement(phase).Some? ==> !PastSending(AfterStatement(phase).value)
    ensures AfterError(phase).Some? ==> !PastSending(AfterError(phase).value)
  {
  }

  lemma SentGrows(w: World, w': World, id: RowId)
    requires w.sent <= w'.sent && WasSent(w, id)
    ensures WasSent(w', id)
  {
  }

  /** A step that moves one worker and, past its row, nothing. */
  lemma SentStep(w: World, worker: WorkerId, next: Option<Busy>, w': World)
    requires SentKept(w) && worker in w.workers && w.sent <= w'.sent && w'.workers == SetWorker(w.workers, worker, next)
    requires next.Some? && Knows(next.value) ==> WasSent(w', next.value.view.id)
    requires forall id :: id in w'.tables.rows && IsPast(w'.tables.rows[id].state) ==>
               WasSent(w', id) || (id in w.tables.rows && IsPast(w.tables.rows[id].state))
    ensures SentKept(w')
  {
    hide IsPast, Knows, WasSent;
    forall id | WasSent(w, id) ensures WasSent(w', id) {
      SentGrows(w, w', id);
    }
  }

  lemma ThoughtKeepsSent(links: Links, provider: Option<string>, w: World, worker: WorkerId, answer: Answer)
    requires Inv(links, w) && SentKept(w) && Enabled(links, provider, w, Acts(worker, answer))
    requires !Writes(w.workers[worker].phase) || answer.Crashed?
    ensures SentKept(Apply(links, provider, w, Acts(worker, answer)))
  {
    var b, w' := w.workers[worker], Apply(links, provider, w, Acts(worker, answer));
    assert Fenced(links, w, worker) && Acting(links, w, worker, answer);
    var next := Advance(w.tables, links, worker, b, answer).next;
    hide Inv, Fenced, Acting, Answers, Think, IsPast, PastSending, LockFree, WasSent, SentKept, SetWorker;
    assert w'.tables == w.tables && (next.Some? ==> next.value.view == b.view);
    if b.phase.Broadcasting? {
      BroadcastTags(links, provider, w, worker, answer);
    } else if Knows(b) {
      KnownWasSent(w, worker, w');
    } else if !answer.Crashed? {
      ThoughtStaysBefore(links, w, worker, answer);
    }
    SentStep(w, worker, next, w');
  }

  lemma KnownWasSent(w: World, worker: WorkerId, w': World)
    requires SentKept(w) && worker in w.workers && w.sent <= w'.sent
    requires Knows(w.workers[worker]) || (w.workers[worker].view.id in w.tables.rows
                                          && IsPast(w.tables.rows[w.workers[worker].view.id].state))
    ensures WasSent(w', w.workers[worker].view.id)
  {
    hide IsPast, Knows;
  }

  lemma BroadcastTags(links: Links, provider: Option<string>, w: World, worker: WorkerId, answer: Answer)
    requires Enabled(links, provider, w, Acts(worker, answer)) && w.workers[worker].phase.Broadcasting?
             && Fenced(links, w, worker)
    ensures WasSent(Apply(links, provider, w, Acts(worker, answer)), w.workers[worker].view.id)
  {
    var phase := w.workers[worker].phase;
    hide Think, Answers, GoodRow, Later, Resolves, Live, GoodProvided;
    assert (phase.job.id, phase.raw) in Apply(links, provider, w, Acts(worker, answer)).sent;
  }

  /** A statement of a worker that knows of no broadcast leaves it and its row before one. */
  lemma WriteStaysBefore(links: Links, w: World, worker: WorkerId, answer: Answer)
    requires worker in w.workers && Fenced(links, w, worker) && Writes(w.workers[worker].phase) && !answer.Crashed?
             && Expects(w.workers[worker].phase, answer)
    requires !Knows(w.workers[worker]) && !IsPast(w.tables.rows[w.workers[worker].view.id].state)
    ensures var b := w.workers[worker];
            var effect := Advance(w.tables, links, worker, b, answer);
            && (effect.next.Some? ==> effect.next.value.view.id == b.view.id && !Knows(effect.next.value))
            && (b.view.id in effect.tables.rows ==> !IsPast(effect.tables.rows[b.view.id].state))
  {
    var b := w.workers[worker];
    NextStaysBefore(b.phase);
    if Statement(w.tables, worker, b.phase).Some? {
      StatementStaysBefore(links, w, worker);
      StatementKeepsIds(w.tables, worker, b.phase);
    }
    assert b.view.id == b.phase.job.id && w.tables.rows[b.view.id].id == b.view.id;
    hide Fenced, Statement, AfterStatement, AfterError, IsPast, PastSending, Writes;
  }

  lemma StatementKeepsIds(t: Tables, worker: WorkerId, phase: Phase)
    requires Statement(t, worker, phase).Some?
    ensures forall id :: id in t.rows && t.rows[id].id == id ==>
              id in Statement(t, worker, phase).value.rows && Statement(t, worker, phase).value.rows[id].id == id
  {
    hide ParseUsdc, IntentHashFor;
  }

  lemma WriteTouchesOneRow(links: Links, w: World, worker: WorkerId, answer: Answer)
    requires worker in w.workers && Fenced(links, w, worker) && Writes(w.workers[worker].phase) && !answer.Crashed?
             && Expects(w.workers[worker].phase, answer)
    ensures var b := w.workers[worker];
            var effect := Advance(w.tables, links, worker, b, answer);
            && (effect.next.Some? ==> effect.next.value.view.id == b.view.id)
            && forall other :: other in effect.tables.rows && other != b.view.id ==>
                 other in w.tables.rows && effect.tables.rows[other] == w.tables.rows[other]
  {
    var b := w.workers[worker];
    hide Statement, AfterStatement, AfterError, IsPast, PastSending, Writes, GoodRow, GoodPhase, Later;
    assert b.view.id in w.tables.rows;
    hide Fenced;
    if Statement(w.tables, worker, b.phase).Some? {
      StatementStaysBefore(links, w, worker);
      StatementKeepsIds(w.tables, worker, b.phase);
    }
  }

  lemma WriteKeepsSent(links: Links, provider: Option<string>, w: World, worker: WorkerId, answer: Answer)
    requires Inv(links, w) && SentKept(w) && Enabled(links, provider, w, Acts(worker, answer))
    requires Writes(w.workers[worker].phase) && !answer.Crashed?
    ensures SentKept(Apply(links, provider, w, Acts(worker, answer)))
  {
    var b, w' := w.workers[worker], Apply(links, provider, w, Acts(worker, answer));
    assert Fenced(links, w, worker) && b.view.id in w.tables.rows && Expects(b.phase, answer);
    var effect := Advance(w.tables, links, worker, b, answer);
    assert w.sent <= w'.sent && w'.tables == effect.tables && w'.workers == SetWorker(w.workers, worker, effect.next);
    hide Inv, Fenced, Enabled, Apply, Answers, Advance, IsPast, Knows, LockFree, WasSent, Writes, SentKept, SetWorker;
    WriteTouchesOneRow(links, w, worker, answer);
    if !Knows(b) && !IsPast(w.tables.rows[b.view.id].state) {
      WriteStaysBefore(links, w, worker, answer);
    }
    OneRowMoves(w, worker, effect.next, w');
  }

  /** A step that moves one worker and its own row, neither of them past the broadcast unless one was. */
  lemma OneRowMoves(w: World, worker: WorkerId, next: Option<Busy>, w': World)
    requires SentKept(w) && worker in w.workers && w.sent <= w'.sent && w'.workers == SetWorker(w.workers, worker, next)
    requires w.workers[worker].view.id in w.tables.rows
             && (next.Some? ==> next.value.view.id == w.workers[worker].view.id)
    requires forall other :: other in w'.tables.rows && other != w.workers[worker].view.id ==>
               other in w.tables.rows && w'.tables.rows[other] == w.tables.rows[other]
    requires var b := w.workers[worker];
             Knows(b) || IsPast(w.tables.rows[b.view.id].state)
             || ((next.Some? ==> !Knows(next.value))
                 && (b.view.id in w'.tables.rows ==> !IsPast(w'.tables.rows[b.view.id].state)))
    ensures SentKept(w')
  {
    hide IsPast, Knows, WasSent, SentKept, SetWorker;
    var b := w.workers[worker];
    if Knows(b) || IsPast(w.tables.rows[b.view.id].state) {
      KnownWasSent(w, worker, w');
    }
    SentStep(w, worker, next, w');
  }

  lemma StepKeepsSent(links: Links, provider: Option<string>, w: World, e: Event)
    requires Inv(links, w) && SentKept(w) && Enabled(links, provider, w, e)
    ensures SentKept(Apply(links, provider, w, e))
  {
    hide RowsGood, WorkersFenced, LocksExclusive, IsPast, WasSent;
    match e {
      case Acts(worker, answer) =>
        if Writes(w.workers[worker].phase) && !answer.Crashed? {
          WriteKeepsSent(links, provider, w, worker, answer);
        } else {
          ThoughtKeepsSent(links, provider, w, worker, answer);
        }
      case _ => QuietKeepsSent(links, provider, w, e);
    }
  }

  lemma QuietKeepsSent(links: Links, provider: Option<string>, w: World, e: Event)
    requires RowsGood(links, w) && SentKept(w) && Enabled(links, provider, w, e) && !e.Acts?
    ensures SentKept(Apply(links, provider, w, e))
  {
    var w' := Apply(links, provider, w, e);
    hide Inserts, IsLinkOf, Claimable, HashInput, GoodRow;
    assert forall id :: WasSent(w, id) ==> WasSent(w', id) by {
      forall id | WasSent(w, id) ensures WasSent(w', id) {
        SentGrows(w, w', id);
      }
    }
    hide WasSent;
  }

  lemma {:induction false} RunsKeepSent(links: Links, provider: Option<string>, run: seq<World>, events: seq<Event>,
                                        i: nat)
    requires IsRun(links, provider, run, events) && i < |run|
    ensures SentKept(run[i])
  {
    if i == 0 {
      assert SentKept(INITIAL);
    } else {
      RunsKeepSent(links, provider, run, events, i - 1);
      RunsAreGood(links, provider, run, events, i - 1);
      hide Inv, SentKept, Enabled, Apply;
      StepKeepsSent(links, provider, run[i - 1], events[i - 1]);
    }
  }

  // -- Main results ------------------------------------------------------------------------------

  /** A row that is submitted, unknown, executed, refused or failed has had its bytes sent. */
  lemma LaterStatesWereSent(links: Links, provider: Option<string>, run: seq<World>, events: seq<Event>, i: nat,
                            id: RowId)
    requires IsRun(links, provider, run, events) && i < |run|
    requires id in run[i].tables.rows && IsPast(run[i].tables.rows[id].state)
    ensures run[i].tables.rows[id].signedRawTransaction.Some?
    ensures (id, run[i].tables.rows[id].signedRawTransaction.value) in run[i].sent
  {
    RunsAreGood(links, provider, run, events, i);
    RunsKeepSent(links, provider, run, events, i);
    assert WasSent(run[i], id) && HistoryKept(run[i]);
    hide Inv, IsRun, PaysRow;
    var raw :| (id, raw) in run[i].sent;
  }

  /** A row blocked without bytes is never sent, in any world of the run, whatever its code. */
  lemma BlockedWithoutBytesNeverSent(links: Links, provider: Option<string>, run: seq<World>, events: seq<Event>,
                                     i: nat, k: nat, id: RowId, raw: RawTx)
    requires IsRun(links, provider, run, events) && i < |run| && k < |run|
    requires id in run[i].tables.rows && run[i].tables.rows[id].state == SignerBlocked
             && run[i].tables.rows[id].signedRawTransaction.None?
    ensures (id, raw) !in run[k].sent
  {
    RunsAreGood(links, provider, run, events, k);
    assert HistoryKept(run[k]);
    RowsOnlyAdvance(links, provider, run, events, if i <= k then i else k, if i <= k then k else i);
    hide Inv, IsRun, PaysRow, SameRequest;
  }

  /** Step `i` is the one with which a worker whose resolver failed blocks the row it had claimed in state `claimed`. */
  ghost predicate ResolverBlocks(run: seq<World>, events: seq<Event>, i: nat, worker: WorkerId, id: RowId,
                                 claimed: State) {
    && i < |events| && i + 1 < |run| && worker in run[i].workers && events[i].Acts? && events[i].worker == worker
    && var phase := run[i].workers[worker].phase;
       && phase.Finishing? && IsResolverBlock(phase.result) && phase.job.id == id && phase.job.state == claimed
       && id in run[i].tables.rows && run[i].tables.rows[id].state != SignerBlocked
       && id in run[i + 1].tables.rows && run[i + 1].tables.rows[id].state == SignerBlocked
  }

  /** Until it is blocked the row is in the state it was claimed in, and blocking changes no bytes. */
  lemma BlockedAsClaimed(links: Links, provider: Option<string>, run: seq<World>, events: seq<Event>, i: nat,
                         worker: WorkerId, id: RowId, claimed: State)
    requires IsRun(links, provider, run, events) && ResolverBlocks(run, events, i, worker, id, claimed)
    ensures run[i].tables.rows[id].state == claimed
    ensures run[i + 1].tables.rows[id].signedRawTransaction == run[i].tables.rows[id].signedRawTransaction
  {
    LeaseFences(links, provider, run, events, i, worker);
    assert Enabled(links, provider, run[i], events[i]) && run[i + 1] == Apply(links, provider, run[i], events[i]);
    hide IsRun, Answers, GoodResult, IsResolverBlock;
  }

  ghost predicate NeverSentFrom(claimed: State) {
    forall links: Links, provider: Option<string>, run: seq<World>, events: seq<Event>, i: nat, worker: WorkerId,
      id: RowId, k: nat, raw: RawTx ::
      IsRun(links, provider, run, events) && ResolverBlocks(run, events, i, worker, id, claimed) && k < |run| ==>
          (id, raw) !in run[k].sent
  }

  ghost predicate AlwaysSentFrom(claimed: State) {
    forall links: Links, provider: Option<string>, run: seq<World>, events: seq<Event>, i: nat, worker: WorkerId,
      id: RowId ::
      IsRun(links, provider, run, events) && ResolverBlocks(run, events, i, worker, id, claimed) ==> WasSent(run[i], id)
  }

  lemma BlockedBeforeSigning(claimed: State)
    requires claimed in {Queued, SigningPrepared}
    ensures NeverSentFrom(claimed)
  {
    hide IsRun, ResolverBlocks;
    forall links: Links, provider: Option<string>, run: seq<World>, events: seq<Event>, i: nat, worker: WorkerId,
      id: RowId, k: nat, raw: RawTx |
      IsRun(links, provider, run, events) && ResolverBlocks(run, events, i, worker, id, claimed) && k < |run|
      ensures (id, raw) !in run[k].sent
    {
      ClaimedUnsigned(links, provider, run, events, i, worker, id, claimed);
      BlockedWithoutBytesNeverSent(links, provider, run, events, i + 1, k, id, raw);
    }
  }

  lemma ClaimedUnsigned(links: Links, provider: Option<string>, run: seq<World>, events: seq<Event>, i: nat,
                        worker: WorkerId, id: RowId, claimed: State)
    requires IsRun(links, provider, run, events) && ResolverBlocks(run, events, i, worker, id, claimed)
             && claimed in {Queued, SigningPrepared}
    ensures i + 1 < |run| && id in run[i + 1].tables.rows && run[i + 1].tables.rows[id].state == SignerBlocked
    ensures run[i + 1].tables.rows[id].signedRawTransaction.None?
  {
    BlockedAsClaimed(links, provider, run, events, i, worker, id, claimed);
    RunsAreGood(links, provider, run, events, i);
    assert GoodRow(links, run[i].chain, run[i].tables.rows[id]);
    hide IsRun, Inv;
  }

  lemma BlockedAfterSending(claimed: State)
    requires claimed in {Submitted, Unknown}
    ensures AlwaysSentFrom(claimed)
  {
    forall links: Links, provider: Option<string>, run: seq<World>, events: seq<Event>, i: nat, worker: WorkerId,
      id: RowId |
      IsRun(links, provider, run, events) && ResolverBlocks(run, events, i, worker, id, claimed)
      ensures WasSent(run[i], id)
    {
      BlockedAsClaimed(links, provider, run, events, i, worker, id, claimed);
      LaterStatesWereSent(links, provider, run, events, i, id);
    }
  }
}
