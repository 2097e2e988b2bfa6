/** Idempotency of `enqueue`: the key is exact text, the row is read back with letter case folded. */
module Enqueue {
  import opened Prelude
  import opened Instruction
  import opened Payments
  import opened Journal

  /** The row that holds a submission's exact key for the user's linked account. */
  predicate Holds(rows: Rows, id: RowId, s: Submission, account: string) {
    && id in rows && rows[id].userSubject == s.userSubject && rows[id].account == account
       && SameText(account, s.account)
    && rows[id].mandateId == s.mandateId && rows[id].requestId == s.requestId
  }

  /** A first submission adds one row, queued, with the submission's own fields and nothing decided yet. */
  lemma StoredRowIsTheSubmission(t: Tables, s: Submission, account: string, id: RowId, now: nat, t': Tables,
                                 result: EnqueueResult)
    requires Inserts(t, s, Some(account)) && id !in t.rows && IsEnqueued(t, s, Some(account), id, now, t', result)
    ensures t'.transactions == t.transactions && t'.rows.Keys == t.rows.Keys + {id}
    ensures forall other :: other in t.rows ==> t'.rows[other] == t.rows[other]
    ensures result == Accepted(t'.rows[id])
    ensures var row := t'.rows[id];
            && row.id == id && row.userSubject == s.userSubject && row.account == account
               && row.mandateId == s.mandateId
            && row.requestId == s.requestId && row.text == Trim(s.text) && row.createdAt == now && row.state == Queued
            && row.parsedRecipient.None? && row.parsedAmount.None? && row.providerOperationId.None? && row.txNonce.None?
            && row.unsignedIntentHash.None? && row.signedRawTransaction.None? && row.txHash.None?
            && row.signingKeyArn.None? && row.rule.None? && row.attemptedUnits.None? && row.headroomUnits.None?
            && row.errorCode.None? && row.lastBroadcastError.None? && row.leaseOwner.None? && row.leaseUntil.None?
  {
    hide KeyTaken, HashInput, Trim, Lower;
  }

  /** Two inputs are taken for the same exactly when they agree up to letter case and surrounding space. */
  lemma SameInputExactly(a: Submission, b: Submission)
    ensures HashInput(a) == HashInput(b) <==>
            && SameText(a.account, b.account) && a.mandateId == b.mandateId && SameText(a.requestId, b.requestId)
            && Trim(a.text) == Trim(b.text)
  {
    hide Trim, Lower;
  }

  /** No other row of the user differs from the submission's key in letter case only. */
  predicate OnlySpelling(rows: Rows, id: RowId, s: Submission) {
    forall other :: other in rows && other != id && rows[other].userSubject == s.userSubject
                    && rows[other].mandateId == s.mandateId ==>
                      Lower(rows[other].account) != Lower(s.account)
                        || Lower(rows[other].requestId) != Lower(s.requestId)
  }

  lemma SingletonOf(found: set<RowId>, id: RowId)
    requires id in found
    ensures |found| == 1 <==> forall other :: other in found ==> other == id
  {
    var rest := found - {id};
    assert found == rest + {id};
    assert |found| == |rest| + 1;
    assert forall other :: other in found <==> other == id || other in rest;
  }

  /**
   * Submitting a held key again changes nothing. It returns the held row exactly when the input is the
   * same and no other row differs from it in letter case only; a changed input is then a conflict, and
   * beside such a row every answer is that the request does not exist.
   */
  lemma DuplicateIsReadBack(t: Tables, s: Submission, account: string, id: RowId, now: nat, t': Tables,
                            result: EnqueueResult, held: RowId)
    requires Holds(t.rows, held, s, account) && IsEnqueued(t, s, Some(account), id, now, t', result)
    ensures t' == t
    ensures result == Accepted(t.rows[held]) <==>
            OnlySpelling(t.rows, held, s) && t.rows[held].inputHash == HashInput(s)
    ensures result == RequestConflict <==> OnlySpelling(t.rows, held, s) && t.rows[held].inputHash != HashInput(s)
    ensures result == RequestNotFound <==> !OnlySpelling(t.rows, held, s)
  {
    hide HashInput, Lower;
    var found := ReadBack(t.rows, s);
    assert KeyTaken(t.rows, account, s);
    assert held in found;
    SingletonOf(found, held);
    assert OnlySpelling(t.rows, held, s) <==> forall other :: other in found ==> other == held;
    hide ReadBack, OnlySpelling;
  }

  /** A first submission is stored, and submitting it again at once returns that row. */
  lemma FirstThenDuplicate(t: Tables, s: Submission, account: string, id: RowId, now: nat, again: RowId, later: nat,
                           t': Tables, t'': Tables, first: EnqueueResult, second: EnqueueResult)
    requires SameText(account, s.account) && Inserts(t, s, Some(account)) && id !in t.rows
    requires IsEnqueued(t, s, Some(account), id, now, t', first)
             && IsEnqueued(t', s, Some(account), again, later, t'', second)
    ensures t'' == t' && first == Accepted(NewRow(id, s, account, now))
    ensures second == first <==> ReadBack(t.rows, s) == {}
  {
    hide HashInput, Lower, Trim;
    assert Holds(t'.rows, id, s, account);
    DuplicateIsReadBack(t', s, account, again, later, t'', second, id);
    assert forall other :: other in t.rows ==> other in t'.rows && t'.rows[other] == t.rows[other];
    assert OnlySpelling(t'.rows, id, s) <==> forall other :: other in t.rows ==> other !in ReadBack(t.rows, s);
  }

  /**
   * Two submissions whose request IDs differ in letter case only make two rows, and from then on both
   * IDs are answered as not found.
   */
  lemma CaseVariantHidesRequest(t: Tables, a: Submission, b: Submission, account: string, id: RowId, other: RowId,
                                again: RowId,
                                t1: Tables, t2: Tables, t3: Tables, first: EnqueueResult, second: EnqueueResult,
                                third: EnqueueResult, s: Submission)
    requires SameText(account, a.account) && Inserts(t, a, Some(account)) && Inserts(t, b, Some(account))
    requires b == a.(requestId := b.requestId) && a.requestId != b.requestId && SameText(a.requestId, b.requestId)
    requires id !in t.rows && other !in t.rows && id != other && (s == a || s == b)
    requires IsEnqueued(t, a, Some(account), id, 0, t1, first)
    requires IsEnqueued(t1, b, Some(account), other, 1, t2, second)
    requires IsEnqueued(t2, s, Some(account), again, 2, t3, third)
    ensures first.Accepted? && second.Accepted? && third == RequestNotFound && t3 == t2
  {
    hide HashInput, Trim, Lower;
    assert t1 == WithRow(t, NewRow(id, a, account, 0));
    assert t2 == WithRow(t1, NewRow(other, b, account, 1));
    hide Inserts, IsEnqueued;
    assert id in ReadBack(t2.rows, s) && other in ReadBack(t2.rows, s);
    DuplicateIsReadBack(t2, s, account, again, 2, t3, third, if s == a then id else other);
  }

  const CAPITAL := Submission("user", "0x00000000000000000000000000000000000000ac", 1,
                              "0x000000000000000000000000000000000000000000000000000000000000000A", "pay")
  const SMALL := CAPITAL.(requestId := "0x000000000000000000000000000000000000000000000000000000000000000a")

  /** Two such request IDs, of 64 hexadecimal digits each. */
  lemma TwoSpellings()
    ensures |CAPITAL.requestId| == |SMALL.requestId| == 66 && CAPITAL.requestId != SMALL.requestId
            && SameText(CAPITAL.requestId, SMALL.requestId)
  {
    var a, b := CAPITAL.requestId, SMALL.requestId;
    assert a[65] == 'A' && b[65] == 'a' && a[..65] == b[..65];
    forall i | 0 <= i < 66 ensures LowerChar(a[i]) == LowerChar(b[i]) {
      assert i < 65 ==> a[i] == a[..65][i] && b[i] == b[..65][i];
    }
    assert Lower(a) == Lower(b);
  }
}
