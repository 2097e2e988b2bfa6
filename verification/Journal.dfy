/**
 * The request journal: `agent/src/db/journal.ts`. Each function below is one committed SQL statement
 * on the tables as values; `PgJournal` keeps the tables and runs those statements.
 */
module Journal {
  import opened Prelude
  import opened Instruction
  import opened Payments
  import Amount

  datatype State =
    | Queued | NeedsClarification | Signing | SigningPrepared | Signed | Submitted | Pending
    | Executed | Refused | SignerBlocked | TechnicalFailure | Unknown

  datatype InputHash = InputHashOf(account: string, mandateId: nat, requestId: string, text: string)

  datatype Row = Row(
    id: RowId, userSubject: string, account: string, mandateId: nat, requestId: string, inputHash: InputHash,
      text: string,
    state: State, parsedRecipient: Option<string>, parsedAmount: Option<nat>, providerOperationId: Option<string>,
    txNonce: Option<nat>, unsignedIntentHash: Option<IntentHash>, signedRawTransaction: Option<RawTx>,
      txHash: Option<TxHash>,
    signingKeyArn: Option<string>, rule: Option<string>, attemptedUnits: Option<nat>, headroomUnits: Option<nat>,
    errorCode: Option<string>, lastBroadcastError: Option<string>,
    leaseOwner: Option<WorkerId>, leaseUntil: Option<nat>, createdAt: nat)

  datatype Link = Link(userSubject: string, agentAddress: string, signerProvider: string)

  /** `account_links` by account address. */
  type Links = map<string, Link>

  type Rows = map<RowId, Row>

  /** `requests` and `request_transactions`. */
  datatype Tables = Tables(rows: Rows, transactions: set<(RowId, TxHash)>)

  datatype FinishResult = FinishResult(
    state: State, rule: Option<string>, attemptedUnits: Option<nat>, headroomUnits: Option<nat>,
      errorCode: Option<string>)

  const LEASE_SECONDS: nat := 30

  function WithRow(t: Tables, row: Row): Tables {
    t.(rows := t.rows[row.id := row])
  }

  /** The guard `WHERE id = $1 AND lease_owner = $2` of every worker's write. */
  predicate Owns(t: Tables, id: RowId, worker: WorkerId) {
    id in t.rows && t.rows[id].id == id && t.rows[id].leaseOwner == Some(worker)
  }

  // -- Enqueue -----------------------------------------------------------------------------------

  datatype Submission = Submission(userSubject: string, account: string, mandateId: nat, requestId: string,
                                   text: string)

  datatype EnqueueResult = Accepted(row: Row) | RequestNotFound | RequestConflict

  function HashInput(s: Submission): InputHash {
    InputHashOf(Lower(s.account), s.mandateId, Lower(s.requestId), Trim(s.text))
  }

  /** `account` is the link the submission names, if the user has one. */
  predicate IsLinkOf(links: Links, s: Submission, account: Option<string>) {
    match account
    case Some(a) => a in links && links[a].userSubject == s.userSubject && SameText(a, s.account)
    case None => forall a :: a in links ==> !(links[a].userSubject == s.userSubject && SameText(a, s.account))
  }

  function NewRow(id: RowId, s: Submission, account: string, now: nat): Row {
    Row(id, s.userSubject, account, s.mandateId, s.requestId, HashInput(s), Trim(s.text), Queued,
        None, None, None, None, None, None, None, None, None, None, None, None, None, None, None, now)
  }

  /** The unique key of the table is exact text. */
  predicate KeyTaken(rows: Rows, account: string, s: Submission) {
    exists id :: id in rows && rows[id].account == account && rows[id].mandateId == s.mandateId
      && rows[id].requestId == s.requestId
  }

  /** The rows a submission reads back: here letter case is folded. */
  function ReadBack(rows: Rows, s: Submission): set<RowId> {
    set id | id in rows && rows[id].userSubject == s.userSubject && SameText(rows[id].account, s.account)
             && rows[id].mandateId == s.mandateId && SameText(rows[id].requestId, s.requestId)
  }

  predicate Inserts(t: Tables, s: Submission, account: Option<string>) {
    account.Some? && !KeyTaken(t.rows, account.value, s)
  }

  predicate IsEnqueued(t: Tables, s: Submission, account: Option<string>, id: RowId, now: nat, t': Tables,
                       result: EnqueueResult) {
    if Inserts(t, s, account) then
      var row := NewRow(id, s, account.value, now);
      t' == WithRow(t, row) && result == Accepted(row)
    else
      && t' == t
      && var found := ReadBack(t.rows, s);
         if |found| != 1 then result == RequestNotFound
         else exists r :: r in found && result == (if t.rows[r].inputHash == HashInput(s) then Accepted(t.rows[r])
                                                   else RequestConflict)
  }

  // -- Claim -------------------------------------------------------------------------------------

  predicate Recoverable(row: Row) {
    || row.state in {Queued, Signing, SigningPrepared, Signed, Submitted, Pending}
    || (row.state == Unknown && (row.txHash.Some? || row.providerOperationId.Some?))
  }

  predicate LeaseExpired(row: Row, now: nat) {
    row.leaseUntil.None? || row.leaseUntil.value < now
  }

  predicate Claimable(row: Row, links: Links, provider: Option<string>, now: nat) {
    && Recoverable(row) && LeaseExpired(row, now)
    && row.account in links && (provider.None? || links[row.account].signerProvider == provider.value)
  }

  function Candidates(rows: Rows, links: Links, provider: Option<string>, now: nat, locked: set<RowId>): set<RowId> {
    set id | id in rows && id !in locked && Claimable(rows[id], links, provider, now)
  }

  /** `ORDER BY created_at LIMIT 1`, past the rows other transactions hold locked. */
  predicate IsNext(rows: Rows, links: Links, provider: Option<string>, now: nat, locked: set<RowId>, id: RowId) {
    var candidates := Candidates(rows, links, provider, now, locked);
    id in candidates && forall other :: other in candidates ==> rows[id].createdAt <= rows[other].createdAt
  }

  function Leased(row: Row, worker: WorkerId, now: nat): Row {
    row.(leaseOwner := Some(worker), leaseUntil := Some(now + LEASE_SECONDS))
  }

  lemma OldestExists(rows: Rows, among: set<RowId>) returns (id: RowId)
    requires among != {} && among <= rows.Keys
    ensures id in among && forall other :: other in among ==> rows[id].createdAt <= rows[other].createdAt
  {
    var first :| first in among;
    var rest := among - {first};
    id := first;
    if rest != {} {
      id := OldestExists(rows, rest);
      if rows[first].createdAt < rows[id].createdAt {
        id := first;
      }
    }
    assert forall other :: other in among ==> other == first || other in rest;
  }

  // -- Nonce reservation -------------------------------------------------------------------------

  predicate InFlight(state: State) {
    state in {SigningPrepared, Signed, Submitted, Pending}
  }

  /** Signers are compared in lower case, and so is the lock key. */
  function SignerOf(row: Row, links: Links): string
    requires row.account in links
  {
    Lower(links[row.account].agentAddress)
  }

  predicate HoldsNonce(row: Row, links: Links, signer: string) {
    row.account in links && SignerOf(row, links) == signer && row.txNonce.Some? && InFlight(row.state)
  }

  function NoncesInFlight(rows: Rows, links: Links, signer: string, except: RowId): set<nat> {
    set id | id in rows && id != except && HoldsNonce(rows[id], links, signer) :: rows[id].txNonce.value
  }

  lemma MaximumExists(ns: set<nat>) returns (m: nat)
    requires ns != {}
    ensures m in ns && forall n :: n in ns ==> n <= m
  {
    var first :| first in ns;
    var rest := ns - {first};
    m := first;
    if rest != {} {
      m := MaximumExists(rest);
      if first > m {
        m := first;
      }
    }
    assert forall n :: n in ns ==> n == first || n in rest;
  }

  function Maximum(ns: set<nat>): (m: nat)
    requires ns != {}
    ensures m in ns && forall n :: n in ns ==> n <= m
  {
    assert exists m :: m in ns && forall n :: n in ns ==> n <= m by {
      var m := MaximumExists(ns);
    }
    var m :| m in ns && forall n :: n in ns ==> n <= m;
    m
  }

  /** `max(pendingNonce, highest in flight + 1)`. */
  function NextNonce(rows: Rows, links: Links, signer: string, id: RowId, pendingNonce: nat): (nonce: nat)
    ensures nonce >= pendingNonce
    ensures forall other :: other in rows && other != id && HoldsNonce(rows[other], links, signer) ==>
              rows[other].txNonce.value < nonce
    ensures nonce == pendingNonce || exists other ::
              other in rows && other != id && HoldsNonce(rows[other], links, signer)
              && rows[other].txNonce.value + 1 == nonce
  {
    var ns := NoncesInFlight(rows, links, signer, id);
    assert forall other :: other in rows && other != id && HoldsNonce(rows[other], links, signer) ==>
             rows[other].txNonce.value in ns;
    var inFlightNext := if ns == {} then pendingNonce else Maximum(ns) + 1;
    if pendingNonce > inFlightNext then pendingNonce else inFlightNext
  }

  /** The row belongs to the signer's account and has a nonce that is neither settled nor unknown. */
  predicate Occupies(row: Row, links: Links, signer: string) {
    && row.account in links && Lower(links[row.account].agentAddress) == Lower(signer) && row.txNonce.Some?
    && (row.state == SigningPrepared || row.state == Signed || row.state == Submitted || row.state == Pending)
  }

  /** The chain has not counted the nonce, and it is above that of every other row of the signer. */
  predicate IsAbove(rows: Rows, links: Links, signer: string, id: RowId, pendingNonce: nat, nonce: nat) {
    && nonce >= pendingNonce
    && forall other :: other in rows && other != id && Occupies(rows[other], links, signer) ==>
                         rows[other].txNonce.value < nonce
  }

  /** The next nonce is the least such, whatever the letter case of the signer. */
  lemma NextNonceIsLeast(rows: Rows, links: Links, signer: string, id: RowId, pendingNonce: nat)
    ensures IsAbove(rows, links, signer, id, pendingNonce, NextNonce(rows, links, Lower(signer), id, pendingNonce))
    ensures forall n :: IsAbove(rows, links, signer, id, pendingNonce, n) ==>
              NextNonce(rows, links, Lower(signer), id, pendingNonce) <= n
  {
    forall other | other in rows
      ensures HoldsNonce(rows[other], links, Lower(signer)) <==> Occupies(rows[other], links, signer)
    {
    }
    hide NextNonce, HoldsNonce, Occupies, Lower;
  }

  datatype SigningRead = LeaseLost | Drift | Ambiguous | Reuse(nonce: nat) | Fresh

  /** The first statement of `prepareSigning`, under the signer's lock. */
  function ReadForSigning(t: Tables, id: RowId, worker: WorkerId, intentHash: IntentHash): SigningRead {
    if !Owns(t, id, worker) then LeaseLost
    else
      var row := t.rows[id];
      if row.state == SigningPrepared && row.txNonce.Some? then
        (if row.unsignedIntentHash != Some(intentHash) then Drift else Reuse(row.txNonce.value))
      else if row.state != Queued then Ambiguous
      else Fresh
  }

  /** The reserving statement. */
  function AfterReserve(t: Tables, id: RowId, worker: WorkerId, recipient: string, amount: nat, nonce: nat,
                        intentHash: IntentHash): Option<Tables> {
    if Owns(t, id, worker) && t.rows[id].state == Queued then
      Some(WithRow(t, t.rows[id].(state := SigningPrepared, parsedRecipient := Some(recipient),
                                  parsedAmount := Some(amount),
                                  attemptedUnits := Some(amount), txNonce := Some(nonce),
                                  unsignedIntentHash := Some(intentHash),
                                  lastBroadcastError := None)))
    else None
  }

  // -- Signing, broadcasting, finishing ----------------------------------------------------------

  function AfterSigned(t: Tables, id: RowId, worker: WorkerId, hash: TxHash, raw: RawTx,
                       keyArn: string): Option<Tables> {
    if Owns(t, id, worker) && t.rows[id].state in {SigningPrepared, Signed} then
      Some(WithRow(t, t.rows[id].(state := Signed, signedRawTransaction := Some(raw), txHash := Some(hash),
                                  signingKeyArn := Some(keyArn)))
           .(transactions := t.transactions + {(id, hash)}))
    else None
  }

  function AfterBroadcast(t: Tables, id: RowId, worker: WorkerId): Option<Tables> {
    if Owns(t, id, worker) && t.rows[id].state in {Signed, Submitted} then
      Some(WithRow(t, t.rows[id].(state := Submitted, lastBroadcastError := None)))
    else None
  }

  /** The one write that reports no lost lease. */
  function AfterBroadcastError(t: Tables, id: RowId, worker: WorkerId, error: string): Tables {
    if Owns(t, id, worker) then WithRow(t, t.rows[id].(lastBroadcastError := Some(error[..Min(|error|, 100)]))) else t
  }

  predicate SpacesFrom(s: string, k: nat) {
    forall i :: k <= i < |s| ==> s[i] == ' '
  }

  /** `error_code` is `varchar(100)`: the statement fails on a longer text, unless the excess is spaces. */
  predicate FitsColumn(errorCode: Option<string>) {
    errorCode.Some? ==> SpacesFrom(errorCode.value, 100)
  }

  /** What the column keeps of a text that fits. */
  function Column(errorCode: Option<string>): Option<string> {
    match errorCode
    case Some(text) => Some(text[..Min(|text|, 100)])
    case None => None
  }

  function AfterFinish(t: Tables, id: RowId, worker: WorkerId, result: FinishResult): Option<Tables> {
    if Owns(t, id, worker) && FitsColumn(result.errorCode) then
      Some(WithRow(t, t.rows[id].(state := result.state, rule := result.rule, attemptedUnits := result.attemptedUnits,
                                  headroomUnits := result.headroomUnits, errorCode := Column(result.errorCode),
                                  leaseOwner := None, leaseUntil := None)))
    else None
  }

  /** What the locked read says, and what each write asks of the row besides its holder. */
  lemma GuardsAreExact(t: Tables, id: RowId, worker: WorkerId, intentHash: IntentHash, recipient: string, amount: nat,
                       nonce: nat, hash: TxHash, raw: RawTx, keyArn: string, result: FinishResult)
    requires forall k :: k in t.rows ==> t.rows[k].id == k
    ensures var held := id in t.rows && t.rows[id].leaseOwner == Some(worker);
            var reserved := held && t.rows[id].state == SigningPrepared && t.rows[id].txNonce.Some?;
            var read := ReadForSigning(t, id, worker, intentHash);
            && (read.LeaseLost? <==> !held)
            && (read.Reuse? <==> reserved && t.rows[id].unsignedIntentHash == Some(intentHash))
            && (read.Reuse? ==> Some(read.nonce) == t.rows[id].txNonce)
            && (read.Drift? <==> reserved && t.rows[id].unsignedIntentHash != Some(intentHash))
            && (read.Fresh? <==> held && t.rows[id].state == Queued)
            && (AfterReserve(t, id, worker, recipient, amount, nonce, intentHash).Some? <==>
                  held && t.rows[id].state == Queued)
            && (AfterSigned(t, id, worker, hash, raw, keyArn).Some? <==>
                  held && (t.rows[id].state == SigningPrepared || t.rows[id].state == Signed))
            && (AfterBroadcast(t, id, worker).Some? <==>
                  held && (t.rows[id].state == Signed || t.rows[id].state == Submitted))
            && (AfterFinish(t, id, worker, result).Some? <==>
                  held && (result.errorCode.Some? ==>
                             forall i :: 100 <= i < |result.errorCode.value| ==> result.errorCode.value[i] == ' '))
  {
  }

  // -- The journal object ------------------------------------------------------------------------

  class PgJournal {
    var rows: Rows
    var transactions: set<(RowId, TxHash)>
    const links: Links
    const signerProvider: Option<string>

    constructor (links: Links, signerProvider: Option<string>)
      ensures this.links == links && this.signerProvider == signerProvider
      ensures Contents() == Tables(map[], {})
    {
      this.links := links;
      this.signerProvider := signerProvider;
      rows := map[];
      transactions := {};
    }

    function Contents(): Tables
      reads this
    {
      Tables(rows, transactions)
    }

    /** Row ids are random UUIDs: `id` is any unused one. */
    method Enqueue(s: Submission, id: RowId, now: nat) returns (result: EnqueueResult, ghost account: Option<string>)
      requires id !in rows
      modifies this
      ensures IsLinkOf(links, s, account)
      ensures IsEnqueued(old(Contents()), s, account, id, now, Contents(), result)
    {
      var accounts := set a | a in links && links[a].userSubject == s.userSubject && SameText(a, s.account);
      account := None;
      if accounts != {} {
        var a :| a in accounts;
        account := Some(a);
        if !(exists r ::
               r in rows && rows[r].account == a && rows[r].mandateId == s.mandateId
               && rows[r].requestId == s.requestId) {
          var row := NewRow(id, s, a, now);
          rows := rows[id := row];
          return Accepted(row), account;
        }
      } else {
        assert forall a :: a in links ==>
                 a in accounts || !(links[a].userSubject == s.userSubject && SameText(a, s.account));
      }
      var found := ReadBack(rows, s);
      if |found| != 1 {
        return RequestNotFound, account;
      }
      var r :| r in found;
      if rows[r].inputHash != HashInput(s) {
        return RequestConflict, account;
      }
      return Accepted(rows[r]), account;
    }

    method ClaimNext(worker: WorkerId, now: nat, locked: set<RowId>) returns (job: Option<Row>)
      modifies this
      ensures job.None? ==> Contents() == old(Contents()) && Candidates(rows, links, signerProvider, now, locked) == {}
      ensures job.Some? ==>
                exists id :: IsNext(old(rows), links, signerProvider, now, locked, id)
                             && job.value == Leased(old(rows)[id], worker, now)
                             && Contents() == old(Contents()).(rows := old(rows)[id := job.value])
    {
      var candidates := Candidates(rows, links, signerProvider, now, locked);
      if candidates == {} {
        return None;
      }
      ghost var oldest := OldestExists(rows, candidates);
      assert IsNext(rows, links, signerProvider, now, locked, oldest);
      var id :| id in candidates && forall other :: other in candidates ==> rows[id].createdAt <= rows[other].createdAt;
      assert IsNext(rows, links, signerProvider, now, locked, id);
      var row := Leased(rows[id], worker, now);
      rows := rows[id := row];
      return Some(row);
    }

    /** The whole transaction, when nothing commits between its statements. */
    method PrepareSigning(id: RowId, worker: WorkerId, signerAddress: string, recipient: string, amount: nat,
                          intentHash: IntentHash, pendingNonce: nat)
      returns (reserved: Result<(nat, bool), SigningRead>)
      modifies this
      ensures match ReadForSigning(old(Contents()), id, worker, intentHash)
              case Fresh =>
                var nonce := NextNonce(old(rows), links, Lower(signerAddress), id, pendingNonce);
                reserved == Ok((nonce, false))
                && AfterReserve(old(Contents()), id, worker, recipient, amount, nonce, intentHash) == Some(Contents())
              case Reuse(nonce) => reserved == Ok((nonce, true)) && Contents() == old(Contents())
              case other => reserved == Err(other) && Contents() == old(Contents())
    {
      if !(id in rows && rows[id].id == id && rows[id].leaseOwner == Some(worker)) {
        return Err(LeaseLost);
      }
      var row := rows[id];
      if row.state == SigningPrepared && row.txNonce.Some? {
        if row.unsignedIntentHash != Some(intentHash) {
          return Err(Drift);
        }
        return Ok((row.txNonce.value, true));
      }
      if row.state != Queued {
        return Err(Ambiguous);
      }
      var nonce := NextNonce(rows, links, Lower(signerAddress), id, pendingNonce);
      var kept := Reserve(id, worker, recipient, amount, nonce, intentHash);
      return Ok((nonce, false));
    }

    /** Its reserving statement alone. */
    method Reserve(id: RowId, worker: WorkerId, recipient: string, amount: nat, nonce: nat, intentHash: IntentHash)
      returns (kept: bool)
      modifies this
      ensures kept == AfterReserve(old(Contents()), id, worker, recipient, amount, nonce, intentHash).Some?
      ensures Contents() == if kept then AfterReserve(old(Contents()), id, worker, recipient, amount, nonce,
                                                      intentHash).value else old(Contents())
    {
      kept := id in rows && rows[id].id == id && rows[id].leaseOwner == Some(worker) && rows[id].state == Queued;
      if kept {
        rows := rows[id := rows[id].(state := SigningPrepared, parsedRecipient := Some(recipient),
                                     parsedAmount := Some(amount),
                                     attemptedUnits := Some(amount), txNonce := Some(nonce),
                                     unsignedIntentHash := Some(intentHash),
                                     lastBroadcastError := None)];
      }
    }

    method RecordSigned(id: RowId, worker: WorkerId, hash: TxHash, raw: RawTx, keyArn: string) returns (kept: bool)
      modifies this
      ensures kept == AfterSigned(old(Contents()), id, worker, hash, raw, keyArn).Some?
      ensures Contents() == if kept then AfterSigned(old(Contents()), id, worker, hash, raw, keyArn).value
                            else old(Contents())
    {
      kept := id in rows && rows[id].id == id && rows[id].leaseOwner == Some(worker)
        && rows[id].state in {SigningPrepared, Signed};
      if kept {
        rows := rows[id := rows[id].(state := Signed, signedRawTransaction := Some(raw), txHash := Some(hash),
                                     signingKeyArn := Some(keyArn))];
        transactions := transactions + {(id, hash)};
      }
    }

    method RecordBroadcast(id: RowId, worker: WorkerId) returns (kept: bool)
      modifies this
      ensures kept == AfterBroadcast(old(Contents()), id, worker).Some?
      ensures Contents() == if kept then AfterBroadcast(old(Contents()), id, worker).value else old(Contents())
    {
      kept := id in rows && rows[id].id == id && rows[id].leaseOwner == Some(worker)
        && rows[id].state in {Signed, Submitted};
      if kept {
        rows := rows[id := rows[id].(state := Submitted, lastBroadcastError := None)];
      }
    }

    method RecordBroadcastError(id: RowId, worker: WorkerId, error: string)
      modifies this
      ensures Contents() == AfterBroadcastError(old(Contents()), id, worker, error)
    {
      if id in rows && rows[id].id == id && rows[id].leaseOwner == Some(worker) {
        rows := rows[id := rows[id].(lastBroadcastError := Some(error[..Min(|error|, 100)]))];
      }
    }

    method Finish(id: RowId, worker: WorkerId, result: FinishResult) returns (kept: bool)
      modifies this
      ensures kept == AfterFinish(old(Contents()), id, worker, result).Some?
      ensures Contents() == if kept then AfterFinish(old(Contents()), id, worker, result).value else old(Contents())
    {
      kept := id in rows && rows[id].id == id && rows[id].leaseOwner == Some(worker) && FitsColumn(result.errorCode);
      if kept {
        rows := rows[id := rows[id].(state := result.state, rule := result.rule,
                                     attemptedUnits := result.attemptedUnits,
                                     headroomUnits := result.headroomUnits, errorCode := Column(result.errorCode),
                                     leaseOwner := None, leaseUntil := None)];
      }
    }
  }
}
