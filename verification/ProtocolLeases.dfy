/** What a claim takes, and for how long nobody else can take it. */
module ProtocolLeases {
  import opened Prelude
  import opened Payments
  import opened Journal
  import opened Worker
  import opened Protocol
  import opened ProtocolMoves
  import opened ProtocolInvariant
  import opened ProtocolTheorems

  // -- What can be claimed -----------------------------------------------------------------------

  /** A row some worker can go on with, whose lease is over, on an account of the fleet's provider. */
  predicate IsOpen(row: Row, links: Links, provider: Option<string>, now: nat) {
    && (row.state in {Queued, Signing, SigningPrepared, Signed, Submitted, Pending}
        || (row.state == Unknown && (row.txHash.Some? || row.providerOperationId.Some?)))
    && (row.leaseUntil.Some? ==> row.leaseUntil.value < now)
    && row.account in links && (provider.Some? ==> links[row.account].signerProvider == provider.value)
  }

  /** A claim takes the oldest open row that no other claim has locked. */
  lemma ClaimsTakeTheOldest(links: Links, provider: Option<string>, w: World, worker: WorkerId, id: RowId,
                            locked: set<RowId>)
    ensures Enabled(links, provider, w, Claims(worker, id, locked)) <==>
            && worker !in w.workers && id in w.tables.rows && id !in locked
               && IsOpen(w.tables.rows[id], links, provider, w.now)
            && forall other :: other in w.tables.rows && other !in locked && IsOpen(w.tables.rows[other], links,
                provider, w.now) ==>
                 w.tables.rows[id].createdAt <= w.tables.rows[other].createdAt
  {
    assert forall other :: other in w.tables.rows ==>
        (IsOpen(w.tables.rows[other], links, provider, w.now) <==>
         Claimable(w.tables.rows[other], links, provider, w.now));
    hide IsOpen, Claimable;
  }

  /** It leases that row to the worker for thirty seconds and changes nothing else. */
  lemma ClaimsLeaseForThirtySeconds(links: Links, provider: Option<string>, w: World, worker: WorkerId, id: RowId,
                                    locked: set<RowId>)
    requires Enabled(links, provider, w, Claims(worker, id, locked))
    ensures var w' := Apply(links, provider, w, Claims(worker, id, locked));
            && id in w.tables.rows && w'.tables.rows.Keys == w.tables.rows.Keys && id in w'.tables.rows
            && (forall other :: other in w.tables.rows && other != id ==> w'.tables.rows[other] == w.tables.rows[other])
            && w'.tables.rows[id] == w.tables.rows[id].(leaseOwner := Some(worker), leaseUntil := Some(w.now + 30))
            && w' == w.(tables := w.tables.(rows := w'.tables.rows), workers := w'.workers)
            && worker in w'.workers && w'.workers[worker].view == w'.tables.rows[id]
  {
    hide Claimable;
  }

  // -- Who can take it next ----------------------------------------------------------------------

  /** Step `k` is a committed finish of its worker's row, which releases the lease. */
  ghost predicate Releases(run: seq<World>, events: seq<Event>, k: nat, id: RowId) {
    && k < |events| && k + 1 < |run| && events[k].Acts?
    && events[k].worker in run[k].workers && run[k].workers[events[k].worker].phase.Finishing?
    && run[k].workers[events[k].worker].phase.job.id == id
    && id in run[k].tables.rows && run[k].tables.rows[id].leaseOwner == Some(events[k].worker)
    && id in run[k + 1].tables.rows && run[k + 1].tables.rows[id].leaseOwner.None?
  }

  /** Step `k` claims the row. */
  predicate ClaimsRow(events: seq<Event>, k: nat, id: RowId) {
    k < |events| && events[k].Claims? && events[k].id == id
  }

  predicate LeasedUntil(w: World, id: RowId, until: nat) {
    id in w.tables.rows && w.tables.rows[id].leaseUntil == Some(until)
  }

  lemma StatementKeepsLease(links: Links, w: World, worker: WorkerId, answer: Answer, id: RowId, until: nat)
    requires worker in w.workers && Fenced(links, w, worker) && Expects(w.workers[worker].phase, answer)
    requires LeasedUntil(w, id, until)
    ensures var b := w.workers[worker];
            var after := Advance(w.tables, links, worker, b, answer).tables;
            && id in after.rows
            && (after.rows[id].leaseUntil == Some(until)
                || (&& b.phase.Finishing? && b.phase.job.id == id && w.tables.rows[id].leaseOwner == Some(worker)
                    && after.rows[id].leaseOwner.None?))
  {
    hide Think, GoodRow, GoodPhase, Later, FitsColumn, Column;
  }

  /** Only a finish and a claim of the row touch its lease. */
  lemma StepKeepsLease(links: Links, provider: Option<string>, run: seq<World>, events: seq<Event>, k: nat, id: RowId,
                       until: nat)
    requires IsRun(links, provider, run, events) && k < |events| && LeasedUntil(run[k], id, until)
    ensures k + 1 < |run|
    ensures LeasedUntil(run[k + 1], id, until) || Releases(run, events, k, id) || ClaimsRow(events, k, id)
  {
    var w, e := run[k], events[k];
    assert Enabled(links, provider, w, e) && run[k + 1] == Apply(links, provider, w, e);
    if e.Acts? {
      RunsAreGood(links, provider, run, events, k);
      assert Fenced(links, w, e.worker);
      hide IsRun, Inv, Fenced, Advance, Answers, LockFree;
      StatementKeepsLease(links, w, e.worker, e.answer, id, until);
    } else {
      hide IsRun, IsLinkOf, Inserts, IsNext, HashInput;
    }
  }

  lemma ClockGoesOn(links: Links, provider: Option<string>, run: seq<World>, events: seq<Event>, i: nat, j: nat)
    requires IsRun(links, provider, run, events) && i <= j < |run|
    ensures run[i].now <= run[j].now
    decreases j
  {
    if i < j {
      ClockGoesOn(links, provider, run, events, i, j - 1);
      assert Enabled(links, provider, run[j - 1], events[j - 1])
             && run[j] == Apply(links, provider, run[j - 1], events[j - 1]);
      hide IsRun, Enabled, Advance;
    }
  }

  /** The lease of a claim stands until it is released or the row is claimed again. */
  lemma {:induction false} LeaseStands(links: Links, provider: Option<string>, run: seq<World>, events: seq<Event>,
                                       i: nat, j: nat, id: RowId)
    requires IsRun(links, provider, run, events) && i < j < |run| && ClaimsRow(events, i, id)
    ensures LeasedUntil(run[j], id, run[i].now + 30)
            || exists k :: i < k < j && (Releases(run, events, k, id) || ClaimsRow(events, k, id))
    decreases j
  {
    if j == i + 1 {
      assert Enabled(links, provider, run[i], events[i]) && run[j] == Apply(links, provider, run[i], events[i]);
      hide IsRun, Enabled, Apply;
      ClaimsLeaseForThirtySeconds(links, provider, run[i], events[i].worker, id, events[i].locked);
    } else {
      hide IsRun, Releases;
      LeaseStands(links, provider, run, events, i, j - 1, id);
      if LeasedUntil(run[j - 1], id, run[i].now + 30) {
        StepKeepsLease(links, provider, run, events, j - 1, id, run[i].now + 30);
      }
    }
  }

  /**
   * For thirty seconds after a claim, unless its worker's finish releases it, the row is nobody's to
   * claim: it is not open, so no claim of it is enabled, for any worker.
   */
  lemma {:induction false} ClaimedIsNobodysNext(links: Links, provider: Option<string>, run: seq<World>,
                                                events: seq<Event>, i: nat, j: nat, id: RowId, worker: WorkerId,
                                                locked: set<RowId>)
    requires IsRun(links, provider, run, events) && i < j < |run| && ClaimsRow(events, i, id)
    requires run[j].now <= run[i].now + 30 && forall k :: i < k < j ==> !Releases(run, events, k, id)
    ensures !Enabled(links, provider, run[j], Claims(worker, id, locked))
    ensures id in run[j].tables.rows && run[j].tables.rows[id].leaseUntil == Some(run[i].now + 30)
    decreases j
  {
    LeaseStands(links, provider, run, events, i, j, id);
    if !LeasedUntil(run[j], id, run[i].now + 30) {
      var k :| i < k < j && (Releases(run, events, k, id) || ClaimsRow(events, k, id));
      ClockGoesOn(links, provider, run, events, k, j);
      assert Enabled(links, provider, run[k], events[k]);
      hide IsRun, Enabled;
      ClaimedIsNobodysNext(links, provider, run, events, i, k, id, events[k].worker, events[k].locked);
      assert false;
    }
    hide IsRun, Releases;
  }

  /** Between two claims of a row more than thirty seconds pass, or the lease was released by a committed finish. */
  lemma ClaimsAreApart(links: Links, provider: Option<string>, run: seq<World>, events: seq<Event>, i: nat, j: nat,
                       id: RowId)
    requires IsRun(links, provider, run, events) && i < j && ClaimsRow(events, i, id) && ClaimsRow(events, j, id)
    ensures j < |run| && (run[j].now > run[i].now + 30 || exists k :: i < k < j && Releases(run, events, k, id))
  {
    assert Enabled(links, provider, run[j], events[j]);
    hide Enabled, Releases;
    if run[j].now <= run[i].now + 30 && forall k :: i < k < j ==> !Releases(run, events, k, id) {
      ClaimedIsNobodysNext(links, provider, run, events, i, j, id, events[j].worker, events[j].locked);
    }
  }
}
