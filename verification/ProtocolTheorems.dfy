/** What the invariant gives over whole runs: the promises of the journal and the worker. */
module ProtocolTheorems {
  import opened Prelude
  import opened Amount
  import opened Instruction
  import opened Payments
  import opened Envelope
  import opened Reconcile
  import opened Journal
  import opened Worker
  import opened Protocol
  import opened ProtocolMoves
  import opened ProtocolInvariant

  // -- One event ---------------------------------------------------------------------------------

  lemma LeaseKeepsRow(links: Links, provider: Option<string>, w: World, row: Row, worker: WorkerId)
    requires Claimable(row, links, provider, w.now) && GoodRow(links, w.chain, row) && worker !in w.workers
    ensures Rewrites(links, w, worker, row, Leased(row, worker, w.now), {})
    ensures GoodPhase(links, w.chain, Resolving(Leased(row, worker, w.now)), Leased(row, worker, w.now))
  {
    hide Proves, SameText;
  }

  lemma ClaimKeepsInv(links: Links, provider: Option<string>, w: World, worker: WorkerId, id: RowId, locked: set<RowId>)
    requires Inv(links, w) && worker !in w.workers && IsNext(w.tables.rows, links, provider, w.now, locked, id)
    ensures Inv(links, Apply(links, provider, w, Claims(worker, id, locked)))
    ensures RowsAdvance(w.tables.rows, Apply(links, provider, w, Claims(worker, id, locked)).tables.rows)
  {
    var was := w.tables.rows[id];
    assert was.id == id && GoodRow(links, w.chain, was);
    assert Claimable(was, links, provider, w.now);
    hide Inv, RowsAdvance, Rewrites, GoodPhase, GoodRow, Claimable, IsNext;
    LeaseKeepsRow(links, provider, w, was, worker);
    var row := Leased(was, worker, w.now);
    var w' := Apply(links, provider, w, Claims(worker, id, locked));
    assert w.tables.transactions + {} == w.tables.transactions;
    RowMoveKeepsInv(links, w, worker, row, Some(Busy(Resolving(row), row)), {}, w');
    RowMoveAdvances(links, w, worker, row, Some(Busy(Resolving(row), row)), {}, w');
  }

  lemma NoTags(w: World, id: RowId)
    ensures w.sent + Tagged<RawTx>(id, None) == w.sent && w.asked + Tagged<UnsignedTx>(id, None) == w.asked
  {
  }

  lemma CrashKeepsInv(links: Links, provider: Option<string>, w: World, worker: WorkerId)
    requires Inv(links, w) && Enabled(links, provider, w, Acts(worker, Crashed))
    ensures Inv(links, Apply(links, provider, w, Acts(worker, Crashed)))
    ensures Apply(links, provider, w, Acts(worker, Crashed)).tables == w.tables
  {
    var b := w.workers[worker];
    assert Fenced(links, w, worker) && b.phase.job.id == b.view.id;
    hide Inv, Fenced, Answers, MovesTo, Leaves;
    CrashLeaves(links, w, worker);
    StoppingMoves(links, w, worker);
    MoveKeepsInv(links, w, worker, None, Sent(b.phase), Asked(b.phase));
  }

  lemma ThoughtKeepsInv(links: Links, provider: Option<string>, w: World, worker: WorkerId, answer: Answer)
    requires Inv(links, w) && Enabled(links, provider, w, Acts(worker, answer)) && !answer.Crashed?
             && !Writes(w.workers[worker].phase)
    ensures Inv(links, Apply(links, provider, w, Acts(worker, answer)))
    ensures Apply(links, provider, w, Acts(worker, answer)).tables == w.tables
  {
    var b := w.workers[worker];
    assert Fenced(links, w, worker) && b.phase.job.id == b.view.id;
    assert Acting(links, w, worker, answer) && LocksExclusive(w);
    hide Inv, Fenced, Acting, Answers, Think, MovesTo, Leaves, LocksExclusive, LockFree, SetWorker, Expects;
    ThoughtMoves(links, w, worker, answer);
    MoveKeepsInv(links, w, worker, WithPhase(b.view, Think(w.tables, links, worker, b.phase, answer)), Sent(b.phase),
                 Asked(b.phase));
  }

  /** A write whose guard failed, or that was rejected: the tables stay. */
  lemma LostWriteKeepsInv(links: Links, provider: Option<string>, w: World, worker: WorkerId, answer: Answer)
    requires Inv(links, w) && Enabled(links, provider, w, Acts(worker, answer)) && !answer.Crashed?
             && Writes(w.workers[worker].phase)
    requires var b := w.workers[worker];
             answer.Rejected? || !(Owns(w.tables, b.view.id, worker) && Statement(w.tables, worker, b.phase).Some?)
    ensures Inv(links, Apply(links, provider, w, Acts(worker, answer)))
    ensures Apply(links, provider, w, Acts(worker, answer)).tables == w.tables
  {
    var b := w.workers[worker];
    assert Fenced(links, w, worker) && b.phase.job.id == b.view.id;
    hide Inv, Fenced, Answers, Statement, MovesTo, Leaves, LockFree, AfterStatement, AfterError, Expects, SetWorker;
    NoTags(w, b.view.id);
    LostWriteMoves(links, w, worker);
    if !Owns(w.tables, b.view.id, worker) {
      LostStatement(w.tables, worker, b.phase);
    }
    NoErrorRetry(b.phase);
    StoppingMoves(links, w, worker);
    NothingIsLeft(b);
    MoveKeepsInv(links, w, worker, Advance(w.tables, links, worker, b, answer).next, None, None);
  }

  lemma StatementKeepsInv(links: Links, provider: Option<string>, w: World, worker: WorkerId, answer: Answer)
    requires Inv(links, w) && Enabled(links, provider, w, Acts(worker, answer)) && !answer.Crashed? && !answer.Rejected?
             && Writes(w.workers[worker].phase)
    requires var b := w.workers[worker]; Owns(w.tables, b.view.id, worker) && Statement(w.tables, worker, b.phase).Some?
    ensures Inv(links, Apply(links, provider, w, Acts(worker, answer)))
    ensures RowsAdvance(w.tables.rows, Apply(links, provider, w, Acts(worker, answer)).tables.rows)
  {
    var b := w.workers[worker];
    assert Fenced(links, w, worker) && b.phase.job.id == b.view.id;
    HolderWrites(links, w, worker);
    hide Inv, RowsAdvance, Fenced, Writing, Answers, Statement, LockFree, AfterStatement, AfterError, SetWorker;
    NoTags(w, b.view.id);
    WriteKeepsInv(links, w, worker, answer, Statement(w.tables, worker, b.phase).value);
  }

  lemma HolderWrites(links: Links, w: World, worker: WorkerId)
    requires Inv(links, w) && worker in w.workers && Writes(w.workers[worker].phase)
    requires var b := w.workers[worker]; Owns(w.tables, b.view.id, worker) && Statement(w.tables, worker, b.phase).Some?
    ensures Writing(links, w, worker, Statement(w.tables, worker, w.workers[worker].phase).value)
  {
    assert Fenced(links, w, worker);
    hide GoodRow, GoodPhase, Later, Statement, Writes;
  }

  lemma ActKeepsInv(links: Links, provider: Option<string>, w: World, worker: WorkerId, answer: Answer)
    requires Inv(links, w) && Enabled(links, provider, w, Acts(worker, answer))
    ensures Inv(links, Apply(links, provider, w, Acts(worker, answer)))
    ensures RowsAdvance(w.tables.rows, Apply(links, provider, w, Acts(worker, answer)).tables.rows)
  {
    var b := w.workers[worker];
    SameRowsAdvance(w.tables.rows);
    hide Inv, RowsAdvance, Enabled, Apply, Writes, Statement;
    if answer.Crashed? {
      CrashKeepsInv(links, provider, w, worker);
    } else if !Writes(b.phase) {
      ThoughtKeepsInv(links, provider, w, worker, answer);
    } else if !answer.Rejected? && Owns(w.tables, b.view.id, worker) && Statement(w.tables, worker, b.phase).Some? {
      StatementKeepsInv(links, provider, w, worker, answer);
    } else {
      LostWriteKeepsInv(links, provider, w, worker, answer);
    }
  }

  lemma NothingIsLeft(b: Busy)
    ensures Leaves(b, None, None)
  {
  }

  lemma NoErrorRetry(phase: Phase)
    ensures phase.MarkingError? ==> AfterError(phase) == None
  {
  }

  lemma StoppingMoves(links: Links, w: World, worker: WorkerId)
    requires worker in w.workers
    ensures MovesTo(links, w, worker, None)
  {
  }

  lemma NewRowIsGood(links: Links, w: World, s: Submission, account: string, id: RowId)
    requires account in links && id !in w.tables.rows
    ensures Inserted(w, NewRow(id, s, account, w.now), w.(tables := WithRow(w.tables, NewRow(id, s, account, w.now))))
    ensures GoodRow(links, w.chain, NewRow(id, s, account, w.now))
  {
  }

  /** Every event keeps the invariant and every row. */
  lemma StepKeepsInv(links: Links, provider: Option<string>, w: World, e: Event)
    requires Inv(links, w) && Enabled(links, provider, w, e)
    ensures Inv(links, Apply(links, provider, w, e))
    ensures RowsAdvance(w.tables.rows, Apply(links, provider, w, e).tables.rows)
  {
    var w' := Apply(links, provider, w, e);
    SameRowsAdvance(w.tables.rows);
    hide Inv, GoodRow, Later;
    match e {
      case Enqueues(s, account, id) =>
        NewRowIsGood(links, w, s, account, id);
        InsertKeepsInv(links, w, NewRow(id, s, account, w.now), w');
      case Claims(worker, id, locked) => ClaimKeepsInv(links, provider, w, worker, id, locked);
      case Acts(worker, answer) => ActKeepsInv(links, provider, w, worker, answer);
      case TimePasses(_) => ChainMoveKeepsInv(links, w, w');
      case Mines(_, _) => ChainMoveKeepsInv(links, w, w');
      case Records(_, _) => ChainMoveKeepsInv(links, w, w');
    }
  }

  /** Every world of every run is good. */
  lemma {:induction false} RunsAreGood(links: Links, provider: Option<string>, run: seq<World>, events: seq<Event>,
                                       i: nat)
    requires IsRun(links, provider, run, events) && i < |run|
    ensures Inv(links, run[i])
  {
    hide Enabled, Apply, Inv;
    if i == 0 {
      InitialInv(links);
    } else {
      RunsAreGood(links, provider, run, events, i - 1);
      StepKeepsInv(links, provider, run[i - 1], events[i - 1]);
    }
  }

  lemma AdvanceIsTransitive(a: Rows, b: Rows, c: Rows)
    requires RowsAdvance(a, b) && RowsAdvance(b, c)
    ensures RowsAdvance(a, c)
  {
    forall id | id in a ensures id in c && Later(a[id], c[id]) {
      LaterIsTransitive(a[id], b[id], c[id]);
    }
  }

  // -- Main results ------------------------------------------------------------------------------

  /**
   * Monotone lifecycle: between any two moments of a run a row keeps its request and every written-once
   * field, its rank never drops, and a terminal row does not change at all.
   */
  lemma {:induction false} RowsOnlyAdvance(links: Links, provider: Option<string>, run: seq<World>, events: seq<Event>,
                                           i: nat, j: nat)
    requires IsRun(links, provider, run, events) && i <= j < |run|
    ensures RowsAdvance(run[i].tables.rows, run[j].tables.rows)
    decreases j
  {
    hide IsRun, Enabled, Apply, Inv, RowsAdvance;
    if i == j {
      SameRowsAdvance(run[i].tables.rows);
    } else {
      RowsOnlyAdvance(links, provider, run, events, i, j - 1);
      StepAdvances(links, provider, run, events, j - 1);
      AdvanceIsTransitive(run[i].tables.rows, run[j - 1].tables.rows, run[j].tables.rows);
    }
  }

  lemma StepAdvances(links: Links, provider: Option<string>, run: seq<World>, events: seq<Event>, i: nat)
    requires IsRun(links, provider, run, events) && i + 1 < |run|
    ensures RowsAdvance(run[i].tables.rows, run[i + 1].tables.rows)
  {
    hide Enabled, Apply, Inv, RowsAdvance;
    RunsAreGood(links, provider, run, events, i);
    assert Enabled(links, provider, run[i], events[i]) && run[i + 1] == Apply(links, provider, run[i], events[i]);
    StepKeepsInv(links, provider, run[i], events[i]);
  }

  /** Signed once: bytes and hash, once committed, are the same ever after, and no other hash is recorded. */
  lemma SignedOnce(links: Links, provider: Option<string>, run: seq<World>, events: seq<Event>, i: nat, j: nat,
                   id: RowId, hash: TxHash)
    requires IsRun(links, provider, run, events) && i <= j < |run|
    requires id in run[i].tables.rows && run[i].tables.rows[id].signedRawTransaction.Some?
    ensures id in run[j].tables.rows
    ensures run[j].tables.rows[id].signedRawTransaction == run[i].tables.rows[id].signedRawTransaction
    ensures run[j].tables.rows[id].txHash == Some(KeccakOf(run[i].tables.rows[id].signedRawTransaction.value))
    ensures (id, hash) in run[j].tables.transactions <==>
            hash == KeccakOf(run[i].tables.rows[id].signedRawTransaction.value)
  {
    RowsOnlyAdvance(links, provider, run, events, i, j);
    RunsAreGood(links, provider, run, events, j);
    assert GoodRow(links, run[j].chain, run[j].tables.rows[id]);
    BytesHaveHash(links, run[j].chain, run[j].tables.rows[id]);
    hide GoodRow, WorkersFenced, LocksExclusive, NoncesDistinct;
  }

  lemma BytesHaveHash(links: Links, chain: Chain, row: Row)
    requires GoodRow(links, chain, row) && row.signedRawTransaction.Some?
    ensures row.txHash == Some(KeccakOf(row.signedRawTransaction.value))
            && PaysRow(row.signedRawTransaction.value.body, row)
  {
    hide PaysRow, Shown;
  }

  lemma SendingWritesNothing(links: Links, provider: Option<string>, w: World, e: Event)
    requires Enabled(links, provider, w, e) && Apply(links, provider, w, e).sent != w.sent
    ensures Apply(links, provider, w, e).tables == w.tables
  {
    hide Think, Statement, Answers, LockFree;
  }

  /**
   * Persist before broadcast: when bytes first leave the process they are already the committed bytes of
   * their row, and in every later moment they still are.
   */
  lemma PersistedBeforeSent(links: Links, provider: Option<string>, run: seq<World>, events: seq<Event>, i: nat, j: nat,
                            id: RowId, raw: RawTx)
    requires IsRun(links, provider, run, events) && i + 1 <= j < |run|
    requires (id, raw) in run[i + 1].sent && (id, raw) !in run[i].sent
    ensures id in run[i].tables.rows && run[i].tables.rows[id].signedRawTransaction == Some(raw)
    ensures id in run[j].tables.rows && run[j].tables.rows[id].signedRawTransaction == Some(raw)
  {
    RunsAreGood(links, provider, run, events, i + 1);
    assert HistoryKept(run[i + 1]);
    assert Enabled(links, provider, run[i], events[i]) && run[i + 1] == Apply(links, provider, run[i], events[i]);
    SendingWritesNothing(links, provider, run[i], events[i]);
    RowsOnlyAdvance(links, provider, run, events, i, j);
    hide RowsGood, WorkersFenced, LocksExclusive, NoncesDistinct, Enabled, Apply, PaysRow;
  }

  /** At most one transaction per request row ever reaches the network. */
  lemma OneTransactionPerRow(links: Links, provider: Option<string>, run: seq<World>, events: seq<Event>, i: nat,
                             j: nat, id: RowId, a: RawTx, b: RawTx)
    requires IsRun(links, provider, run, events) && i <= j < |run| && (id, a) in run[i].sent && (id, b) in run[j].sent
    ensures a == b
  {
    RunsAreGood(links, provider, run, events, i);
    RunsAreGood(links, provider, run, events, j);
    assert HistoryKept(run[i]) && HistoryKept(run[j]);
    RowsOnlyAdvance(links, provider, run, events, i, j);
    hide RowsGood, WorkersFenced, LocksExclusive, NoncesDistinct, PaysRow;
  }

  /** Lease fencing: while a worker in a tick holds its row's lease, the row is what it last committed there. */
  lemma LeaseFences(links: Links, provider: Option<string>, run: seq<World>, events: seq<Event>, i: nat,
                    worker: WorkerId)
    requires IsRun(links, provider, run, events) && i < |run| && worker in run[i].workers
    ensures var b := run[i].workers[worker];
            && b.view.id == b.phase.job.id && b.view.id in run[i].tables.rows
            && GoodPhase(links, run[i].chain, b.phase, b.view)
            && (run[i].tables.rows[b.view.id].leaseOwner == Some(worker) ==> run[i].tables.rows[b.view.id] == b.view)
  {
    RunsAreGood(links, provider, run, events, i);
    assert Fenced(links, run[i], worker);
    hide Inv, Later, GoodRow;
  }

  /** A worker without the lease of its row changes no table, whatever it is about to write. */
  lemma StaleWorkerWritesNothing(t: Tables, links: Links, worker: WorkerId, b: Busy, answer: Answer)
    requires Expects(b.phase, answer) && !Owns(t, b.phase.job.id, worker)
    ensures Advance(t, links, worker, b, answer).tables == t
  {
    hide Think;
    if Writes(b.phase) {
      LostStatement(t, worker, b.phase);
    }
    hide Statement;
  }

  predicate IsUnderWay(row: Row) {
    row.state in {SigningPrepared, Signed, Submitted, Pending}
  }

  /** Nonce allocation: rows under way for one agent never share a nonce. */
  lemma InFlightNoncesDiffer(links: Links, provider: Option<string>, run: seq<World>, events: seq<Event>, i: nat,
                             a: RowId, b: RowId)
    requires IsRun(links, provider, run, events) && i < |run| && a != b
    requires a in run[i].tables.rows && b in run[i].tables.rows
    requires IsUnderWay(run[i].tables.rows[a]) && IsUnderWay(run[i].tables.rows[b])
    requires run[i].tables.rows[a].account in links && run[i].tables.rows[b].account in links
    requires Lower(links[run[i].tables.rows[a].account].agentAddress) ==
             Lower(links[run[i].tables.rows[b].account].agentAddress)
    ensures run[i].tables.rows[a].txNonce.Some? && run[i].tables.rows[b].txNonce.Some?
    ensures run[i].tables.rows[a].txNonce != run[i].tables.rows[b].txNonce
  {
    RunsAreGood(links, provider, run, events, i);
    var x, y := run[i].tables.rows[a], run[i].tables.rows[b];
    assert GoodRow(links, run[i].chain, x) && GoodRow(links, run[i].chain, y);
    assert NoncesDistinct(links, run[i].tables.rows);
    InFlightHasNonce(links, run[i].chain, x);
    InFlightHasNonce(links, run[i].chain, y);
    hide Inv, GoodRow, Lower;
    assert HoldsNonce(x, links, SignerOf(x, links)) && HoldsNonce(y, links, SignerOf(y, links));
  }

  lemma InFlightHasNonce(links: Links, chain: Chain, row: Row)
    requires GoodRow(links, chain, row) && InFlight(row.state)
    ensures row.txNonce.Some?
  {
    hide PaysRow, Shown;
  }

  /**
   * Even when other rows move between the read of the highest nonce and the reserving write, the nonce
   * reserved is at least the pending nonce read and above every other nonce its signer has in flight.
   */
  lemma ReservedNonceIsAbove(links: Links, provider: Option<string>, run: seq<World>, events: seq<Event>, i: nat,
                             worker: WorkerId, id: RowId)
    requires IsRun(links, provider, run, events) && i < |run| && worker in run[i].workers
             && run[i].workers[worker].phase.Reserving?
    requires id in run[i].tables.rows && InFlight(run[i].tables.rows[id].state)
             && run[i].tables.rows[id].account in links
    requires SignerOf(run[i].tables.rows[id], links) == Lower(run[i].workers[worker].phase.deps.signer)
    ensures run[i].workers[worker].phase.nonce >= run[i].workers[worker].phase.pendingNonce
    ensures run[i].tables.rows[id].txNonce.Some?
            && run[i].tables.rows[id].txNonce.value < run[i].workers[worker].phase.nonce
  {
    LeaseFences(links, provider, run, events, i, worker);
    RunsAreGood(links, provider, run, events, i);
    var row := run[i].tables.rows[id];
    assert GoodRow(links, run[i].chain, row);
    assert NonceAbove(links, run[i].tables.rows, Lower(run[i].workers[worker].phase.deps.signer),
                      run[i].workers[worker].phase.nonce);
    InFlightHasNonce(links, run[i].chain, row);
    hide Inv, GoodRow;
    assert HoldsNonce(row, links, SignerOf(row, links));
  }

  /**
   * A nonce given out again: whatever other rows of the signer hold the nonce a worker is about to
   * reserve have left flight, and the pending count it read is not past it.
   */
  lemma ReservedNonceLeftFlight(links: Links, provider: Option<string>, run: seq<World>, events: seq<Event>, i: nat,
                                worker: WorkerId, id: RowId)
    requires IsRun(links, provider, run, events) && i < |run| && worker in run[i].workers
             && run[i].workers[worker].phase.Reserving?
    requires id in run[i].tables.rows && run[i].tables.rows[id].account in links
    requires SignerOf(run[i].tables.rows[id], links) == Lower(run[i].workers[worker].phase.deps.signer)
    requires run[i].tables.rows[id].txNonce == Some(run[i].workers[worker].phase.nonce)
    ensures run[i].tables.rows[id].state == Unknown || Terminal(run[i].tables.rows[id].state)
    ensures run[i].workers[worker].phase.pendingNonce <= run[i].workers[worker].phase.nonce
  {
    var row := run[i].tables.rows[id];
    RunsAreGood(links, provider, run, events, i);
    assert GoodRow(links, run[i].chain, row);
    LeaseFences(links, provider, run, events, i, worker);
    hide Inv, IsRun, Resolves;
    if InFlight(row.state) {
      ReservedNonceIsAbove(links, provider, run, events, i, worker, id);
    }
    hide Shown, HasBytes, Prepared;
  }

  /** An unknown row keeps its bytes and hash, so it can be claimed again once its lease is over. */
  lemma UnknownStaysClaimable(links: Links, provider: Option<string>, run: seq<World>, events: seq<Event>, i: nat,
                              id: RowId)
    requires IsRun(links, provider, run, events) && i < |run|
    requires id in run[i].tables.rows && run[i].tables.rows[id].state == Unknown
    ensures var row := run[i].tables.rows[id];
            && HasBytes(row) && row.account in links
            && (LeaseExpired(row, run[i].now)
                && (provider.None? || links[row.account].signerProvider == provider.value) ==>
                  Claimable(row, links, provider, run[i].now))
  {
    RunsAreGood(links, provider, run, events, i);
    assert GoodRow(links, run[i].chain, run[i].tables.rows[id]);
    hide Inv;
  }

  /** Neither ambiguous-state fallback of the dispatch is ever taken. */
  lemma FallbacksAreUnreachable(links: Links, provider: Option<string>, run: seq<World>, events: seq<Event>, i: nat,
                                worker: WorkerId, present: bool)
    requires IsRun(links, provider, run, events) && i < |run| && worker in run[i].workers
             && run[i].workers[worker].phase.Routing?
    ensures var phase := run[i].workers[worker].phase;
            var next := Route(phase.job, phase.deps, present);
            next.Some? && !next.value.Finishing?
  {
    RunsAreGood(links, provider, run, events, i);
    assert Fenced(links, run[i], worker);
    var b := run[i].workers[worker];
    assert GoodRow(links, run[i].chain, b.view) && GoodPhase(links, run[i].chain, b.phase, b.view);
    hide Inv, GoodRow, Route, Fenced;
    RouteIsGood(links, run[i].chain, b.phase.job, b.phase.deps, present);
  }

  /** Nor is the missing-intent fallback, after a broadcast, a rebroadcast or a nonce too low. */
  lemma IntentIsNeverMissing(links: Links, provider: Option<string>, run: seq<World>, events: seq<Event>, i: nat,
                             worker: WorkerId, note: Option<string>)
    requires IsRun(links, provider, run, events) && i < |run| && worker in run[i].workers
    requires run[i].workers[worker].phase.Broadcasting? || run[i].workers[worker].phase.MarkingBroadcast?
    ensures var phase := run[i].workers[worker].phase;
            var next := StartReconcile(phase.job, phase.deps, KeccakOf(phase.raw), note, phase.provided);
            next.Some? && next.value.Reconciling?
  {
    RunsAreGood(links, provider, run, events, i);
    assert Fenced(links, run[i], worker);
    var Busy(phase, view) := run[i].workers[worker];
    assert GoodPhase(links, run[i].chain, phase, view);
    hide Inv, GoodRow, Fenced, Live, Resolves, SameRequest, GoodProvided, IsRun;
    LiveHash(view);
    hide StartReconcile, GoodPhase;
    StartedReconcileIsGood(links, run[i].chain, phase.job, phase.deps, KeccakOf(phase.raw), None, phase.provided, view);
    NoteIsOnlyCarried(phase.job, phase.deps, KeccakOf(phase.raw), note, phase.provided);
  }

  lemma NoteIsOnlyCarried(job: Row, deps: Dependencies, hash: TxHash, note: Option<string>,
                          provided: Option<PaymentIntent>)
    ensures var quiet, noted := StartReconcile(job, deps, hash, None, provided),
            StartReconcile(job, deps, hash, note, provided);
            quiet.Some? && quiet.value.Reconciling? ==> noted == Some(quiet.value.(note := note))
  {
    hide StoredIntent;
  }

  /** Under the lock a worker finds its row queued, or has lost the lease: no drift, no ambiguity, no reuse. */
  lemma PreparingFindsQueued(links: Links, provider: Option<string>, run: seq<World>, events: seq<Event>, i: nat,
                             worker: WorkerId, hash: IntentHash)
    requires IsRun(links, provider, run, events) && i < |run| && worker in run[i].workers
             && run[i].workers[worker].phase.Preparing?
    ensures ReadForSigning(run[i].tables, run[i].workers[worker].phase.job.id, worker, hash) in {LeaseLost, Fresh}
  {
    LeaseFences(links, provider, run, events, i, worker);
    hide Resolves;
  }

  /** Whatever path leads to a reconciliation, the hash it asks the chain about is the row's own. */
  lemma ReconciledHashIsStored(links: Links, provider: Option<string>, run: seq<World>, events: seq<Event>, i: nat,
                               worker: WorkerId)
    requires IsRun(links, provider, run, events) && i < |run| && worker in run[i].workers
             && run[i].workers[worker].phase.Reconciling?
    ensures var phase := run[i].workers[worker].phase;
            phase.job.id in run[i].tables.rows && run[i].tables.rows[phase.job.id].txHash == Some(phase.hash)
  {
    RunsAreGood(links, provider, run, events, i);
    assert Fenced(links, run[i], worker);
    hide Inv, GoodRow, Resolves, Live, IntentOf;
  }

  /**
   * Outcome soundness: a row ends executed, refused or failed only if the receipt of its own hash goes
   * from its agent to its account and, unless it reverted, an event or the stored record shows that
   * outcome for its request, mandate, agent, recipient and amount.
   */
  lemma OutcomesAreProved(links: Links, provider: Option<string>, run: seq<World>, events: seq<Event>, i: nat,
                          id: RowId)
    requires IsRun(links, provider, run, events) && i < |run|
    requires id in run[i].tables.rows && run[i].tables.rows[id].state in {Executed, Refused, TechnicalFailure}
    ensures var row, chain := run[i].tables.rows[id], run[i].chain;
            var outcome := if row.state == Executed then DidExecute else if row.state == Refused then DidRefuse
              else DidRevert;
            && HasBytes(row) && row.account in links && row.txHash.value in chain.receipts
            && Proves(chain.receipts[row.txHash.value], RecordAt(chain, KeyOf(row)), row.account,
                      links[row.account].agentAddress,
                      row.requestId, row.mandateId, row.parsedRecipient.value, row.parsedAmount.value, outcome)
  {
    RunsAreGood(links, provider, run, events, i);
    assert GoodRow(links, run[i].chain, run[i].tables.rows[id]);
    hide Inv, Proves;
  }

  /**
   * Recovery rebuilds the same payment: every transaction handed to a signer for a row, before or after
   * any crash, carries the nonce, mandate, request, recipient and amount that the row holds at the end.
   */
  lemma EverySigningPaysTheRow(links: Links, provider: Option<string>, run: seq<World>, events: seq<Event>, i: nat,
                               j: nat, id: RowId, tx: UnsignedTx)
    requires IsRun(links, provider, run, events) && i <= j < |run| && (id, tx) in run[i].asked
    ensures id in run[j].tables.rows && PaysRow(tx, run[j].tables.rows[id])
  {
    RunsAreGood(links, provider, run, events, i);
    assert HistoryKept(run[i]);
    RowsOnlyAdvance(links, provider, run, events, i, j);
    PaysLater(tx, run[i].tables.rows[id], run[j].tables.rows[id]);
    hide Inv, PaysRow;
  }

  /** A row blocked while its transaction was being built has no bytes and is never broadcast. */
  lemma BlockedWhileBuildingNeverSent(links: Links, provider: Option<string>, run: seq<World>, events: seq<Event>,
                                      i: nat, j: nat, id: RowId, raw: RawTx)
    requires IsRun(links, provider, run, events) && i < |run| && j < |run|
    requires id in run[i].tables.rows && run[i].tables.rows[id].state == SignerBlocked
             && IsBuildCode(run[i].tables.rows[id].errorCode)
    ensures run[i].tables.rows[id].signedRawTransaction.None? && (id, raw) !in run[j].sent
  {
    RunsAreGood(links, provider, run, events, i);
    RunsAreGood(links, provider, run, events, j);
    assert GoodRow(links, run[i].chain, run[i].tables.rows[id]);
    assert HistoryKept(run[j]);
    if i <= j {
      RowsOnlyAdvance(links, provider, run, events, i, j);
    } else {
      RowsOnlyAdvance(links, provider, run, events, j, i);
    }
    hide Inv, PaysRow;
  }
}
