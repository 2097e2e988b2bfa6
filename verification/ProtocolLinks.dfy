/**
 * What a change of `account_links` does to nonces. The runs keep the links; an owner can move a link to a
 * new account between two statements.
 */
module ProtocolLinks {
  import opened Prelude
  import opened Payments
  import opened Journal
  import opened Protocol

  function AgentOf(links: Links, account: string): string
    requires account in links
  {
    Lower(links[account].agentAddress)
  }

  predicate AllLinked(links: Links, rows: Rows) {
    forall id :: id in rows ==> rows[id].account in links
  }

  /** No two accounts of different agents come to share one. */
  predicate MergesNoAgents(before: Links, after: Links) {
    forall a, b :: a in before && b in before && a in after && b in after && AgentOf(after, a) == AgentOf(after, b) ==>
                     AgentOf(before, a) == AgentOf(before, b)
  }

  /** Every account of the signer keeps it. */
  predicate KeepsAccountsOf(before: Links, after: Links, signer: string) {
    forall a :: a in before && AgentOf(before, a) == signer ==> a in after && AgentOf(after, a) == signer
  }

  /** A prepared row of an account, with this nonce. */
  function Prepared(id: RowId, account: string, nonce: nat): Row {
    NewRow(id, Submission("user", account, 1, "0x", "pay"), account, 0).(state := SigningPrepared,
                                                                         txNonce := Some(nonce))
  }

  /** Distinct nonces in flight stay distinct, whatever the rows, exactly when no agents are merged. */
  lemma NoncesStayDistinctExactlyWhen(before: Links, after: Links)
    ensures MergesNoAgents(before, after) <==>
            forall rows: Rows :: AllLinked(before, rows) && NoncesDistinct(before, rows) ==> NoncesDistinct(after, rows)
  {
    hide Lower, NewRow;
    if MergesNoAgents(before, after) {
      forall rows: Rows | AllLinked(before, rows) && NoncesDistinct(before, rows) ensures NoncesDistinct(after, rows) {
        DistinctStaysDistinct(before, after, rows);
      }
    } else {
      var a, b :| a in before && b in before && a in after && b in after && AgentOf(after, a) == AgentOf(after, b)
                  && AgentOf(before, a) != AgentOf(before, b);
      MergedAgentsCollide(before, after, a, b);
    }
  }

  lemma DistinctStaysDistinct(before: Links, after: Links, rows: Rows)
    requires MergesNoAgents(before, after) && AllLinked(before, rows) && NoncesDistinct(before, rows)
    ensures NoncesDistinct(after, rows)
  {
    hide Lower;
    forall i, j | i in rows && j in rows && i != j && rows[i].account in after && rows[j].account in after
                  && HoldsNonce(rows[i], after, SignerOf(rows[i], after))
                     && HoldsNonce(rows[j], after, SignerOf(rows[j], after))
                  && SignerOf(rows[i], after) == SignerOf(rows[j], after)
      ensures rows[i].txNonce != rows[j].txNonce
    {
      assert AgentOf(before, rows[i].account) == AgentOf(before, rows[j].account);
      assert HoldsNonce(rows[i], before, SignerOf(rows[i], before))
             && HoldsNonce(rows[j], before, SignerOf(rows[j], before));
    }
  }

  lemma MergedAgentsCollide(before: Links, after: Links, a: string, b: string)
    requires a in before && b in before && a in after && b in after
    requires AgentOf(after, a) == AgentOf(after, b) && AgentOf(before, a) != AgentOf(before, b)
    ensures exists rows: Rows :: AllLinked(before, rows) && NoncesDistinct(before, rows) && !NoncesDistinct(after, rows)
  {
    var rows: Rows := map[1 := Prepared(1, a, 7), 2 := Prepared(2, b, 7)];
    hide Lower, HashInput;
    assert rows[1].account == a && rows[2].account == b;
    assert HoldsNonce(rows[1], after, SignerOf(rows[1], after)) && HoldsNonce(rows[2], after, SignerOf(rows[2], after));
    assert !NoncesDistinct(after, rows);
    assert AllLinked(before, rows) && NoncesDistinct(before, rows);
  }

  /**
   * A nonce reserved after the change is above every nonce its signer had in flight before it, whatever
   * the rows and the pending count, exactly when every account of the signer keeps it. The rows of an
   * account whose link moved on are no longer counted.
   */
  lemma NextNonceStaysAboveExactlyWhen(before: Links, after: Links, signer: string, id: RowId)
    ensures KeepsAccountsOf(before, after, signer) <==>
            forall rows: Rows, other: RowId, pending: nat ::
              other in rows && other != id && HoldsNonce(rows[other], before, signer) ==>
                rows[other].txNonce.value < NextNonce(rows, after, signer, id, pending)
  {
    hide Lower, NewRow, NextNonce;
    if KeepsAccountsOf(before, after, signer) {
      forall rows: Rows, other: RowId, pending: nat | other in rows && other != id
        && HoldsNonce(rows[other], before, signer)
        ensures rows[other].txNonce.value < NextNonce(rows, after, signer, id, pending)
      {
        assert AgentOf(before, rows[other].account) == signer;
        assert HoldsNonce(rows[other], after, signer);
      }
    } else {
      var a :| a in before && AgentOf(before, a) == signer && !(a in after && AgentOf(after, a) == signer);
      DroppedNonceReturns(before, after, signer, id, a);
    }
  }

  lemma DroppedNonceReturns(before: Links, after: Links, signer: string, id: RowId, a: string)
    requires a in before && AgentOf(before, a) == signer && !(a in after && AgentOf(after, a) == signer)
    ensures exists rows: Rows, other: RowId, pending: nat ::
              other in rows && other != id && HoldsNonce(rows[other], before, signer)
              && NextNonce(rows, after, signer, id, pending) == rows[other].txNonce.value
  {
    var other: RowId := id + 1;
    var rows: Rows := map[other := Prepared(other, a, 7)];
    hide Lower, HashInput;
    assert rows[other].account == a && HoldsNonce(rows[other], before, signer)
           && !HoldsNonce(rows[other], after, signer);
    assert NextNonce(rows, after, signer, id, 7) == 7;
  }
}
