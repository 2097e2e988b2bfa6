/**
 * The four shapes every event has: a worker moves without writing, the lease holder rewrites its row, a
 * row is leased or inserted, the chain grows. Each keeps the invariant.
 */
module ProtocolMoves {
  import opened Prelude
  import opened Amount
  import opened Instruction
  import opened Payments
  import opened Reconcile
  import opened Journal
  import opened Worker
  import opened Protocol

  // -- The chain grows ---------------------------------------------------------------------------

  ghost predicate Grows(a: Chain, b: Chain) {
    && (forall h :: h in a.receipts ==> h in b.receipts && b.receipts[h] == a.receipts[h])
    && (forall k :: k in a.records ==> k in b.records && b.records[k] == a.records[k])
  }

  lemma ShownStays(links: Links, a: Chain, b: Chain, row: Row, outcome: Outcome)
    requires Grows(a, b) && Shown(links, a, row, outcome)
    ensures Shown(links, b, row, outcome)
  {
    hide FindOutcomeEvent, SameText, HasIntent;
    var key := KeyOf(row);
    assert key in a.records ==> RecordAt(b, key) == RecordAt(a, key);
  }

  lemma GoodRowStays(links: Links, a: Chain, b: Chain, row: Row)
    requires Grows(a, b) && GoodRow(links, a, row)
    ensures GoodRow(links, b, row)
  {
    hide Shown, HasBytes, Prepared, Blank;
    match row.state {
      case TechnicalFailure => ShownStays(links, a, b, row, DidRevert);
      case Executed => ShownStays(links, a, b, row, DidExecute);
      case Refused => ShownStays(links, a, b, row, DidRefuse);
      case _ =>
    }
  }

  lemma GoodPhaseStays(links: Links, a: Chain, b: Chain, phase: Phase, view: Row)
    requires Grows(a, b) && GoodPhase(links, a, phase, view)
    ensures GoodPhase(links, b, phase, view)
  {
    hide Shown, Live, Resolves, IntentOf, PaysRow, GoodProvided, GoodIntent, SameRequest;
    if phase.Finishing? && view.leaseOwner.Some? {
      match phase.result.state {
        case TechnicalFailure => ShownStays(links, a, b, view, DidRevert);
        case Executed => ShownStays(links, a, b, view, DidExecute);
        case Refused => ShownStays(links, a, b, view, DidRefuse);
        case _ =>
      }
    }
  }

  lemma ChainMoveKeepsInv(links: Links, w: World, w': World)
    requires Inv(links, w) && Grows(w.chain, w'.chain)
    requires w' == w.(chain := w'.chain, now := w'.now)
    ensures Inv(links, w')
  {
    hide GoodRow, GoodPhase, Later, HoldsNonce, PaysRow;
    forall id | id in w'.tables.rows ensures GoodRow(links, w'.chain, w'.tables.rows[id]) {
      GoodRowStays(links, w.chain, w'.chain, w.tables.rows[id]);
    }
    forall worker | worker in w'.workers ensures Fenced(links, w', worker) {
      assert Fenced(links, w, worker);
      var b := w.workers[worker];
      GoodPhaseStays(links, w.chain, w'.chain, b.phase, b.view);
      GoodRowStays(links, w.chain, w'.chain, b.view);
    }
  }

  // -- A worker moves without writing ------------------------------------------------------------

  /** What a worker's next phase must satisfy when its tables did not change. */
  ghost predicate MovesTo(links: Links, w: World, worker: WorkerId, next: Option<Busy>)
    requires worker in w.workers
  {
    next.Some? ==>
      && next.value.view == w.workers[worker].view
      && GoodPhase(links, w.chain, next.value.phase, next.value.view)
      && (HoldsLock(next.value.phase) ==> MayHoldLock(w, worker, next.value))
      && (next.value.phase.Reserving? ==>
            NonceAbove(links, w.tables.rows, Lower(next.value.phase.deps.signer), next.value.phase.nonce))
  }

  /** It held the lock already, or the lock is free and its row is out of flight. */
  ghost predicate MayHoldLock(w: World, worker: WorkerId, next: Busy)
    requires worker in w.workers && HoldsLock(next.phase)
  {
    var old' := w.workers[worker].phase;
    || (HoldsLock(old') && Lower(old'.deps.signer) == Lower(next.phase.deps.signer))
    || (LockFree(w, worker, Lower(next.phase.deps.signer))
        && (next.view.id in w.tables.rows ==> !InFlight(w.tables.rows[next.view.id].state)))
  }

  predicate Leaves(b: Busy, sent: Option<RawTx>, asked: Option<UnsignedTx>) {
    && (sent.Some? ==> b.view.signedRawTransaction == sent)
    && (asked.Some? ==> PaysRow(asked.value, b.view))
  }

  function Moved(w: World, worker: WorkerId, next: Option<Busy>, id: RowId, sent: Option<RawTx>,
                 asked: Option<UnsignedTx>): World {
    w.(workers := SetWorker(w.workers, worker, next), sent := w.sent + Tagged(id, sent),
       asked := w.asked + Tagged(id, asked))
  }

  lemma PaysLater(tx: UnsignedTx, a: Row, b: Row)
    requires PaysRow(tx, a) && Later(a, b)
    ensures PaysRow(tx, b)
  {
  }

  lemma MoveKeepsFences(links: Links, w: World, worker: WorkerId, next: Option<Busy>, w': World)
    requires WorkersFenced(links, w) && worker in w.workers && MovesTo(links, w, worker, next)
    requires w'.tables == w.tables && w'.chain == w.chain && w'.workers == SetWorker(w.workers, worker, next)
    ensures WorkersFenced(links, w')
  {
    hide GoodRow, GoodPhase, Later, LockFree, NonceAbove;
    assert Fenced(links, w, worker);
    forall other | other in w'.workers ensures Fenced(links, w', other) {
      if other != worker {
        assert Fenced(links, w, other);
      }
    }
  }

  lemma MoveKeepsLocks(links: Links, w: World, worker: WorkerId, next: Option<Busy>, w': World)
    requires LocksExclusive(w) && ReservationsAbove(links, w) && worker in w.workers && MovesTo(links, w, worker, next)
    requires w'.tables == w.tables && w'.workers == SetWorker(w.workers, worker, next)
    ensures LocksExclusive(w') && ReservationsAbove(links, w')
  {
    hide GoodPhase, NonceAbove;
  }

  lemma MoveKeepsHistory(links: Links, w: World, worker: WorkerId, id: RowId, sent: Option<RawTx>,
                         asked: Option<UnsignedTx>, w': World)
    requires HistoryKept(w) && worker in w.workers && Fenced(links, w, worker)
    requires w.workers[worker].view.id == id && Leaves(w.workers[worker], sent, asked)
    requires w'.tables == w.tables && w'.sent == w.sent + Tagged(id, sent) && w'.asked == w.asked + Tagged(id, asked)
    ensures HistoryKept(w')
  {
    hide GoodRow, GoodPhase;
    var view := w.workers[worker].view;
    if asked.Some? {
      PaysLater(asked.value, view, w.tables.rows[id]);
    }
    hide PaysRow;
  }

  lemma MoveKeepsInv(links: Links, w: World, worker: WorkerId, next: Option<Busy>, sent: Option<RawTx>,
                     asked: Option<UnsignedTx>)
    requires Inv(links, w) && worker in w.workers && MovesTo(links, w, worker, next)
             && Leaves(w.workers[worker], sent, asked)
    ensures Inv(links, Moved(w, worker, next, w.workers[worker].view.id, sent, asked))
  {
    var id := w.workers[worker].view.id;
    var w' := Moved(w, worker, next, id, sent, asked);
    hide Fenced, MovesTo, Leaves, WorkersFenced, LocksExclusive, ReservationsAbove, NoncesDistinct, HistoryKept,
         RowsGood, TransactionsKept, SetWorker, Tagged;
    MoveKeepsFences(links, w, worker, next, w');
    MoveKeepsLocks(links, w, worker, next, w');
    assert Fenced(links, w, worker) by { FencedAt(links, w, worker); }
    MoveKeepsHistory(links, w, worker, id, sent, asked, w');
    assert RowsGood(links, w') by { RowsGoodFrame(links, w, w'); }
    assert TransactionsKept(w') by { TransactionsFrame(w, w'); }
  }

  lemma FencedAt(links: Links, w: World, worker: WorkerId)
    requires WorkersFenced(links, w) && worker in w.workers
    ensures Fenced(links, w, worker)
  {
  }

  lemma RowsGoodFrame(links: Links, w: World, w': World)
    requires RowsGood(links, w) && w'.tables == w.tables && w'.chain == w.chain
    ensures RowsGood(links, w')
  {
    hide GoodRow;
  }

  lemma TransactionsFrame(w: World, w': World)
    requires TransactionsKept(w) && w'.tables == w.tables
    ensures TransactionsKept(w')
  {
  }

  // -- One row changes ---------------------------------------------------------------------------

  /** The nonces in flight do not grow, except by a reservation of `worker`, which holds the lock. */
  ghost predicate NonceMove(links: Links, w: World, worker: WorkerId, was: Row, row: Row) {
    InFlight(row.state) ==>
      || (InFlight(was.state) && row.txNonce == was.txNonce && row.account == was.account)
      || (&& worker in w.workers && w.workers[worker].phase.Reserving?
          && row.txNonce == Some(w.workers[worker].phase.nonce) && row.account in links
          && Lower(w.workers[worker].phase.deps.signer) == SignerOf(row, links))
  }

  /** `worker` puts `row` in the place of a row that only it may write. */
  ghost predicate RowMove(links: Links, w: World, worker: WorkerId, row: Row, next: Option<Busy>,
                          hashes: set<(RowId, TxHash)>, w': World) {
    && row.id in w.tables.rows
    && Rewrites(links, w, worker, w.tables.rows[row.id], row, hashes)
    && (next.Some? ==> next.value.view == row && GoodPhase(links, w.chain, next.value.phase,
                                                           row) && !HoldsLock(next.value.phase))
    && w' == w.(tables := Tables(w.tables.rows[row.id := row], w.tables.transactions + hashes),
                workers := SetWorker(w.workers, worker, next))
  }

  ghost predicate Rewrites(links: Links, w: World, worker: WorkerId, was: Row, row: Row, hashes: set<(RowId, TxHash)>) {
    && Later(was, row) && GoodRow(links, w.chain, row)
    && (row.leaseOwner.None? || row.leaseOwner == Some(worker))
    && NonceMove(links, w, worker, was, row)
    && (hashes == {} ==> row.txHash == was.txHash)
    && (hashes != {} ==> row.txHash.Some? && hashes == {(row.id, row.txHash.value)})
  }

  /** Every row is still there, in a later version. */
  ghost predicate RowsAdvance(a: Rows, b: Rows) {
    forall id :: id in a ==> id in b && Later(a[id], b[id])
  }

  lemma RowMoveAdvances(links: Links, w: World, worker: WorkerId, row: Row, next: Option<Busy>,
                        hashes: set<(RowId, TxHash)>, w': World)
    requires RowMove(links, w, worker, row, next, hashes, w')
    ensures RowsAdvance(w.tables.rows, w'.tables.rows)
  {
    hide GoodRow, GoodPhase, NonceMove;
    SameRowsAdvance(w.tables.rows);
    hide Later;
  }

  lemma SameRowsAdvance(rows: Rows)
    ensures RowsAdvance(rows, rows)
  {
    forall id | id in rows ensures Later(rows[id], rows[id]) {
      LaterIsReflexive(rows[id]);
    }
  }

  lemma RowMoveKeepsRows(links: Links, w: World, worker: WorkerId, row: Row, next: Option<Busy>,
                         hashes: set<(RowId, TxHash)>, w': World)
    requires RowsGood(links, w) && RowMove(links, w, worker, row, next, hashes, w')
    ensures RowsGood(links, w')
  {
    hide GoodRow, GoodPhase, Later, NonceMove;
  }

  lemma RowMoveKeepsFences(links: Links, w: World, worker: WorkerId, row: Row, next: Option<Busy>,
                           hashes: set<(RowId, TxHash)>, w': World)
    requires WorkersFenced(links, w) && RowMove(links, w, worker, row, next, hashes, w')
    ensures WorkersFenced(links, w')
  {
    hide RowMove, Fenced;
    forall other | other in w'.workers ensures Fenced(links, w', other) {
      if other != worker {
        assert other in w.workers && w'.workers[other] ==
               w.workers[other] by { OthersStay(links, w, worker, row, next, hashes, w', other); }
        RowMoveKeepsFence(links, w, worker, row, next, hashes, w', other);
      } else {
        WriterIsFenced(links, w, worker, row, next, hashes, w');
      }
    }
  }

  lemma OthersStay(links: Links, w: World, worker: WorkerId, row: Row, next: Option<Busy>, hashes: set<(RowId, TxHash)>,
                   w': World, other: WorkerId)
    requires RowMove(links, w, worker, row, next, hashes, w') && other in w'.workers && other != worker
    ensures other in w.workers && w'.workers[other] == w.workers[other]
  {
    hide Rewrites, GoodPhase;
  }

  lemma RowMoveKeepsFence(links: Links, w: World, worker: WorkerId, row: Row, next: Option<Busy>,
                          hashes: set<(RowId, TxHash)>, w': World, other: WorkerId)
    requires RowMove(links, w, worker, row, next, hashes, w') && other != worker
    requires other in w.workers && other in w'.workers && w'.workers[other] == w.workers[other]
             && Fenced(links, w, other)
    ensures Fenced(links, w', other)
  {
    hide GoodRow, GoodPhase, Later, NonceMove;
    if w.workers[other].view.id == row.id {
      LaterIsTransitive(w.workers[other].view, w.tables.rows[row.id], row);
    }
  }

  lemma WriterIsFenced(links: Links, w: World, worker: WorkerId, row: Row, next: Option<Busy>,
                       hashes: set<(RowId, TxHash)>, w': World)
    requires RowMove(links, w, worker, row, next, hashes, w') && worker in w'.workers
    ensures Fenced(links, w', worker)
  {
    hide GoodRow, GoodPhase, Later, NonceMove;
    LaterIsReflexive(row);
    assert next.Some? && w'.workers[worker] == next.value;
  }

  lemma LaterIsReflexive(row: Row)
    ensures Later(row, row)
  {
  }

  lemma RowMoveKeepsLocks(links: Links, w: World, worker: WorkerId, row: Row, next: Option<Busy>,
                          hashes: set<(RowId, TxHash)>, w': World)
    requires LocksExclusive(w) && ReservationsAbove(links, w) && WorkersFenced(links, w)
    requires RowMove(links, w, worker, row, next, hashes, w')
    ensures LocksExclusive(w')
  {
    hide GoodRow, GoodPhase, WorkersFenced;
    assert SameRequest(w.tables.rows[row.id], row);
    hide Later, SameRequest, ReservationsAbove;
    forall a | a in w'.workers && HoldsLock(w'.workers[a].phase) && w'.workers[a].view.id in w'.tables.rows
      ensures !InFlight(w'.tables.rows[w'.workers[a].view.id].state)
    {
      assert a != worker && w'.workers[a] == w.workers[a];
      if w.workers[a].view.id == row.id {
        LockHolderSigns(links, w, a, row);
      }
    }
  }

  /** A worker inside `prepareSigning` locks the signer of its own row. */
  lemma LockHolderSigns(links: Links, w: World, a: WorkerId, row: Row)
    requires WorkersFenced(links, w) && a in w.workers && HoldsLock(w.workers[a].phase)
    requires row.id in w.tables.rows && w.workers[a].view.id == row.id && SameRequest(w.tables.rows[row.id], row)
    ensures row.account in links && Lower(w.workers[a].phase.deps.signer) == SignerOf(row, links)
  {
    assert Fenced(links, w, a);
  }

  lemma RowMoveKeepsReservations(links: Links, w: World, worker: WorkerId, row: Row, next: Option<Busy>,
                                 hashes: set<(RowId, TxHash)>, w': World)
    requires LocksExclusive(w) && ReservationsAbove(links, w)
    requires RowMove(links, w, worker, row, next, hashes, w')
    ensures ReservationsAbove(links, w')
  {
    hide GoodRow, GoodPhase;
    forall a | a in w'.workers && w'.workers[a].phase.Reserving?
      ensures NonceAbove(links, w'.tables.rows, Lower(w'.workers[a].phase.deps.signer), w'.workers[a].phase.nonce)
    {
      assert a != worker && w'.workers[a] == w.workers[a];
      var signer, nonce := Lower(w.workers[a].phase.deps.signer), w.workers[a].phase.nonce;
      assert NonceAbove(links, w.tables.rows, signer, nonce);
      if worker in w.workers && HoldsLock(w.workers[worker].phase) {
        assert Lower(w.workers[worker].phase.deps.signer) != signer;
      }
    }
  }

  lemma RowMoveKeepsNonces(links: Links, w: World, worker: WorkerId, row: Row, next: Option<Busy>,
                           hashes: set<(RowId, TxHash)>, w': World)
    requires NoncesDistinct(links, w.tables.rows) && ReservationsAbove(links, w)
    requires RowMove(links, w, worker, row, next, hashes, w')
    ensures NoncesDistinct(links, w'.tables.rows)
  {
    hide GoodRow, GoodPhase;
    var rows, rows' := w.tables.rows, w'.tables.rows;
    forall j | j in rows' && j != row.id && rows'[j].account in links && row.account in links
               && HoldsNonce(row, links, SignerOf(row, links)) && HoldsNonce(rows'[j], links, SignerOf(rows'[j], links))
               && SignerOf(rows'[j], links) == SignerOf(row, links)
      ensures rows'[j].txNonce != row.txNonce
    {
      assert rows'[j] == rows[j];
      if InFlight(rows[row.id].state) && row.txNonce == rows[row.id].txNonce && row.account == rows[row.id].account {
        assert HoldsNonce(rows[row.id], links, SignerOf(rows[row.id], links));
      } else {
        assert NonceAbove(links, rows, SignerOf(row, links), w.workers[worker].phase.nonce);
      }
    }
  }

  lemma RowMoveKeepsHistory(links: Links, w: World, worker: WorkerId, row: Row, next: Option<Busy>,
                            hashes: set<(RowId, TxHash)>, w': World)
    requires HistoryKept(w) && RowMove(links, w, worker, row, next, hashes, w')
    ensures HistoryKept(w')
  {
    hide GoodRow, GoodPhase, NonceMove;
    forall s | s in w'.asked ensures s.0 in w'.tables.rows && PaysRow(s.1, w'.tables.rows[s.0]) {
      if s.0 == row.id {
        PaysLater(s.1, w.tables.rows[row.id], row);
      }
    }
  }

  lemma RowMoveKeepsTransactions(links: Links, w: World, worker: WorkerId, row: Row, next: Option<Busy>,
                                 hashes: set<(RowId, TxHash)>, w': World)
    requires TransactionsKept(w) && RowMove(links, w, worker, row, next, hashes, w')
    ensures TransactionsKept(w')
  {
    hide GoodRow, GoodPhase, NonceMove;
    var was := w.tables.rows[row.id];
    assert Kept(was.txHash, row.txHash);
    hide Later;
    forall id, hash
      ensures (id, hash) in w'.tables.transactions <==> id in w'.tables.rows && w'.tables.rows[id].txHash == Some(hash)
    {
      assert (id, hash) in w.tables.transactions <==> id in w.tables.rows && w.tables.rows[id].txHash == Some(hash);
    }
  }

  lemma RowMoveKeepsInv(links: Links, w: World, worker: WorkerId, row: Row, next: Option<Busy>,
                        hashes: set<(RowId, TxHash)>, w': World)
    requires Inv(links, w) && RowMove(links, w, worker, row, next, hashes, w')
    ensures Inv(links, w')
  {
    hide RowMove, WorkersFenced, LocksExclusive, ReservationsAbove, NoncesDistinct, HistoryKept, RowsGood,
         TransactionsKept;
    RowMoveKeepsRows(links, w, worker, row, next, hashes, w');
    RowMoveKeepsFences(links, w, worker, row, next, hashes, w');
    RowMoveKeepsLocks(links, w, worker, row, next, hashes, w');
    RowMoveKeepsReservations(links, w, worker, row, next, hashes, w');
    RowMoveKeepsNonces(links, w, worker, row, next, hashes, w');
    RowMoveKeepsHistory(links, w, worker, row, next, hashes, w');
    RowMoveKeepsTransactions(links, w, worker, row, next, hashes, w');
  }

  // -- A row is inserted -------------------------------------------------------------------------

  ghost predicate Inserted(w: World, row: Row, w': World) {
    && row.id !in w.tables.rows && Blank(row) && !InFlight(row.state)
    && w' == w.(tables := WithRow(w.tables, row))
  }

  lemma InsertKeepsWorkers(links: Links, w: World, row: Row, w': World)
    requires WorkersFenced(links, w) && LocksExclusive(w) && ReservationsAbove(links, w) && Inserted(w, row, w')
    ensures WorkersFenced(links, w') && LocksExclusive(w') && ReservationsAbove(links, w')
  {
    hide GoodRow, GoodPhase, Later, Blank;
    forall worker | worker in w'.workers
      ensures Fenced(links, w', worker)
      ensures w.workers[worker].view.id in w.tables.rows
    {
      assert Fenced(links, w, worker);
    }
    forall a | a in w'.workers && w'.workers[a].phase.Reserving?
      ensures NonceAbove(links, w'.tables.rows, Lower(w'.workers[a].phase.deps.signer), w'.workers[a].phase.nonce)
    {
      assert NonceAbove(links, w.tables.rows, Lower(w.workers[a].phase.deps.signer), w.workers[a].phase.nonce);
    }
  }

  lemma InsertKeepsTables(links: Links, w: World, row: Row, w': World)
    requires NoncesDistinct(links, w.tables.rows) && HistoryKept(w) && TransactionsKept(w) && Inserted(w, row, w')
    ensures NoncesDistinct(links, w'.tables.rows) && HistoryKept(w') && TransactionsKept(w')
  {
    hide PaysRow;
    forall id, hash
      ensures (id, hash) in w'.tables.transactions <==> id in w'.tables.rows && w'.tables.rows[id].txHash == Some(hash)
    {
      assert (id, hash) in w.tables.transactions <==> id in w.tables.rows && w.tables.rows[id].txHash == Some(hash);
    }
  }

  lemma InsertKeepsInv(links: Links, w: World, row: Row, w': World)
    requires Inv(links, w) && Inserted(w, row, w') && GoodRow(links, w.chain, row)
    ensures Inv(links, w')
  {
    hide GoodRow, WorkersFenced, LocksExclusive, ReservationsAbove, NoncesDistinct, HistoryKept, TransactionsKept;
    InsertKeepsWorkers(links, w, row, w');
    InsertKeepsTables(links, w, row, w');
  }
}
