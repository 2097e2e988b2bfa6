/**
 * Two runs that show where the protocol promises less than its documents: one request of one user on one
 * account, followed to the broadcast of its bytes.
 */
module ProtocolWitness {
  import opened Prelude
  import opened Radix
  import opened Amount
  import opened Instruction
  import opened Payments
  import opened Envelope
  import opened Reconcile
  import opened Journal
  import opened Worker
  import opened Protocol

  const LINKS: Links := map["0xac" := Link("user", "0xa9", "privy")]
  const KMS := KmsConfig("key", 1000, 10, 10, 1250, 0)
  const DEPS := Dependencies(Context("0xac", "0xa9"), "0xa9", KMS, [RecipientLabel("bob", "0xb0b")], false, Lower)
  const SEEN := ChainReads(1, true, false, "0xa9", 1, 1, None, 1000)
  const REQUEST := Submission("user", "0xac", 1, "0x01", Printed("1", "bob"))
  const INTENT := PaymentIntent("0xb0b", "1")
  const TX := Assemble(1, "0x01", DEPS, INTENT, 1_000_000, 7, SEEN)
  const RAW := RawTx(TX, 0)

  function At(row: Row, phase: Phase, asked: set<(RowId, UnsignedTx)>): World {
    World(Tables(map[1 := row], if row.txHash.Some? then {(1, row.txHash.value)} else {}), 0,
          map["w" := Busy(phase, row)], Chain(map[], map[]), {}, asked)
  }

  ghost predicate Reachable(w: World) {
    exists run, events :: IsRun(LINKS, None, run, events) && run[|events|] == w
  }

  lemma RunTo(w: World) returns (run: seq<World>, events: seq<Event>)
    requires Reachable(w)
    ensures IsRun(LINKS, None, run, events) && run[|events|] == w
  {
    run, events :| IsRun(LINKS, None, run, events) && run[|events|] == w;
  }

  /** One more event. */
  lemma RunOn(run: seq<World>, events: seq<Event>, e: Event, w': World) returns (run': seq<World>, events': seq<Event>)
    requires IsRun(LINKS, None, run, events) && Enabled(LINKS, None, run[|events|], e)
             && w' == Apply(LINKS, None, run[|events|], e)
    ensures run' == run + [w'] && events' == events + [e] && IsRun(LINKS, None, run', events')
  {
    run', events' := run + [w'], events + [e];
    hide Enabled, Apply;
    forall i | 0 <= i < |events'| ensures Enabled(LINKS, None, run'[i], events'[i])
      && run'[i + 1] == Apply(LINKS, None, run'[i], events'[i]) {
      if i < |events| {
        assert run'[i] == run[i] && run'[i + 1] == run[i + 1] && events'[i] == events[i];
      }
    }
  }

  lemma Extend(w: World, e: Event, w': World)
    requires Reachable(w) && Enabled(LINKS, None, w, e) && w' == Apply(LINKS, None, w, e)
    ensures Reachable(w')
  {
    hide Enabled, Apply, Reachable;
    var run, events := RunTo(w);
    run, events := RunOn(run, events, e, w');
    RunReaches(run, events);
  }

  lemma RunReaches(run: seq<World>, events: seq<Event>)
    requires IsRun(LINKS, None, run, events)
    ensures Reachable(run[|events|])
  {
    hide IsRun;
  }

  lemma InitialIsReachable()
    ensures Reachable(INITIAL)
  {
    var run, events: seq<Event> := [INITIAL], [];
    assert IsRun(LINKS, None, run, events) && run[|events|] == INITIAL;
  }

  lemma DepsResolve(row: Row)
    requires row.account == "0xac"
    ensures Resolves(LINKS, row, DEPS)
  {
    LowerIsChecksum();
    assert IsChecksum(DEPS.checksum);
  }

  lemma OneIsWhole()
    ensures Whole("1") == "1" && Fraction("1") == "" && HasUsdcShape("1")
  {
    assert NUMERALS[1] == '1' && IsNumeral('1', 10);
    assert DotIndex("1") == 1;
  }

  lemma OneInMillionths()
    ensures ParseDecimal("1") == 1 && ParseDecimal(PadEnd("", 6)) == 0
  {
    assert NUMERALS[1] == '1' && IsNumeral('1', 10);
    assert Unspell("1") == [1];
    assert Value([1], 10) == 1;
    assert PadEnd("", 6) == ZeroText(6);
    assert Unspell(ZeroText(6)) == Zeros(6);
    ValueOfZeros(6, 10);
  }

  lemma OneUsdc()
    ensures ParseUsdc("1") == Ok(1_000_000)
  {
    hide Whole, Fraction, HasUsdcShape, ParseDecimal, PadEnd;
    OneIsWhole();
    OneInMillionths();
  }

  /** The instruction names the one approved recipient by label. */
  lemma InstructionIsRead()
    ensures Trim(Printed("1", "bob")) == Printed("1", "bob") && ParseUsdc("1") == Ok(1_000_000)
    ensures ParseInstruction(Printed("1", "bob"), DEPS.recipients, None, false, Lower) == Payment(INTENT)
  {
    OneUsdc();
    assert IsToken("1") && IsToken("bob") by { ShortTokens(); }
    GroupsOfPrinted("1", "bob");
    assert |Printed("1", "bob")| == 17;
    assert !IsAddress("bob", Lower);
    assert Filter(DEPS.recipients[1..], (r: RecipientLabel) => SameText(r.title, "bob")) == [];
    assert ByLabel(DEPS.recipients, "bob") == [DEPS.recipients[0]];
    hide Trim, Groups, Printed, ParseUsdc, IsAddress;
  }

  lemma ShortTokens()
    ensures IsToken("1") && IsToken("bob")
  {
  }

  /** The row of the request, leased to the worker and not yet prepared. */
  predicate IsFreshlyLeased(row: Row) {
    && row.id == 1 && row.account == "0xac" && row.mandateId == 1 && row.requestId == "0x01"
       && row.text == Printed("1", "bob")
    && row.state == Queued && Blank(row) && row.leaseOwner == Some("w") && row.leaseUntil == Some(30)
       && row.providerOperationId.None?
  }

  function Waiting(row: Row): World {
    World(Tables(map[1 := row], {}), 0, map[], Chain(map[], map[]), {}, {})
  }

  predicate IsFresh(row: Row) {
    row.leaseOwner.None? && row.leaseUntil.None?
      && IsFreshlyLeased(row.(leaseOwner := Some("w"), leaseUntil := Some(30)))
  }

  lemma Queues() returns (row: Row)
    ensures IsFresh(row) && Reachable(Waiting(row))
  {
    InitialIsReachable();
    InstructionIsRead();
    RequestInserts();
    hide Reachable, Printed, Trim, HashInput, IsLinkOf, Inserts;
    row := NewRow(1, REQUEST, "0xac", 0);
    Extend(INITIAL, Enqueues(REQUEST, "0xac", 1), Waiting(row));
  }

  lemma RequestInserts()
    ensures IsLinkOf(LINKS, REQUEST, Some("0xac")) && Inserts(INITIAL.tables, REQUEST, Some("0xac"))
  {
    hide Printed;
  }

  lemma Claimed() returns (row: Row)
    ensures IsFreshlyLeased(row) && Reachable(At(row, Resolving(row), {}))
  {
    var queued := Queues();
    hide Reachable, Printed, InFlight;
    row := Leased(queued, "w", 0);
    var w, e := Waiting(queued), Claims("w", 1, {});
    OnlyCandidate(w.tables.rows, queued, 0);
    hide IsNext;
    Extend(w, e, At(row, Resolving(row), {}));
  }

  lemma OnlyCandidate(rows: Rows, row: Row, now: nat)
    requires rows == map[1 := row] && Claimable(row, LINKS, None, now)
    ensures IsNext(rows, LINKS, None, now, {}, 1)
  {
    hide Claimable;
    assert Candidates(rows, LINKS, None, now, {}) == {1};
  }

  /** One answer to the only worker, while nothing has been sent. */
  lemma Act(row: Row, phase: Phase, asked: set<(RowId, UnsignedTx)>, answer: Answer, row': Row, phase': Phase,
            asked': set<(RowId, UnsignedTx)>)
    requires Reachable(At(row, phase, asked)) && phase.job.id == 1
    requires Answers(LINKS, At(row, phase, asked), phase, answer) && !answer.Crashed? && Sent(phase).None?
    requires Advance(At(row, phase, asked).tables, LINKS, "w", Busy(phase, row), answer)
             == Effect(At(row', phase', asked').tables, Some(Busy(phase', row')), None, Asked(phase))
    requires asked' == asked + Tagged(1, Asked(phase))
    ensures Reachable(At(row', phase', asked'))
  {
    hide Reachable, Answers, Advance, Asked, Sent;
    var w, e := At(row, phase, asked), Acts("w", answer);
    assert Enabled(LINKS, None, w, e);
    var w' := Apply(LINKS, None, w, e);
    assert w'.workers == map["w" := Busy(phase', row')];
    assert w' == At(row', phase', asked');
    Extend(w, e, w');
  }

  lemma ResolveAndRoute(row: Row)
    requires IsFreshlyLeased(row) && Reachable(At(row, Resolving(row), {}))
    ensures Reachable(At(row, Parsing(row, DEPS), {}))
  {
    DepsResolve(row);
    hide Reachable, Resolves, Printed, DEPS;
    Act(row, Resolving(row), {}, ResolverGave(DEPS), row, Routing(row, DEPS), {});
    Act(row, Routing(row, DEPS), {}, ReceiptProbed(false), row, Parsing(row, DEPS), {});
  }

  lemma ParseAndLock(row: Row)
    requires IsFreshlyLeased(row) && Reachable(At(row, Parsing(row, DEPS), {}))
    ensures Reachable(At(row, ReadingPending(row, DEPS, INTENT), {}))
  {
    InstructionIsRead();
    hide Reachable, ParseInstruction, ParseUsdc, Printed, IntentHashFor;
    Act(row, Parsing(row, DEPS), {}, ModelSaid(None), row, Preparing(row, DEPS, INTENT), {});
    Act(row, Preparing(row, DEPS, INTENT), {}, Committed, row, ReadingPending(row, DEPS, INTENT), {});
  }

  lemma PickNonce(row: Row)
    requires IsFreshlyLeased(row) && Reachable(At(row, ReadingPending(row, DEPS, INTENT), {}))
    ensures Reachable(At(row, Reserving(row, DEPS, INTENT, 7, 7), {}))
  {
    hide Reachable, Printed, InFlight;
    Act(row, ReadingPending(row, DEPS, INTENT), {}, PendingNonce(7), row, ReadingHighest(row, DEPS, INTENT, 7), {});
    NothingInFlight(map[1 := row], Lower(DEPS.signer), 1, 7);
    hide NextNonce;
    Act(row, ReadingHighest(row, DEPS, INTENT, 7), {}, Committed, row, Reserving(row, DEPS, INTENT, 7, 7), {});
  }

  lemma NothingInFlight(rows: Rows, signer: string, id: RowId, pendingNonce: nat)
    requires forall other :: other in rows && other != id ==> !InFlight(rows[other].state)
    ensures NextNonce(rows, LINKS, signer, id, pendingNonce) == pendingNonce
  {
    assert NoncesInFlight(rows, LINKS, signer, id) == {};
  }

  /** The row with its intent and nonce, and then with its bytes. */
  function PreparedFrom(row: Row): Row {
    row.(state := SigningPrepared, parsedRecipient := Some("0xb0b"), parsedAmount := Some(1_000_000),
         attemptedUnits := Some(1_000_000),
         txNonce := Some(7), unsignedIntentHash := Some(IntentHashFor(DEPS.context, row, "0xb0b", 1_000_000)),
           lastBroadcastError := None)
  }

  function SignedFrom(row: Row): Row {
    PreparedFrom(row).(state := Signed, signedRawTransaction := Some(RAW), txHash := Some(KeccakOf(RAW)),
                       signingKeyArn := Some("key"))
  }

  lemma Reserve(row: Row)
    requires IsFreshlyLeased(row) && Reachable(At(row, Reserving(row, DEPS, INTENT, 7, 7), {}))
    ensures Reachable(At(PreparedFrom(row), Building(row, DEPS, INTENT, 7), {}))
  {
    InstructionIsRead();
    hide Reachable, Printed, ParseUsdc, ParseInstruction, IntentHashFor;
    var t := At(row, Reserving(row, DEPS, INTENT, 7, 7), {}).tables;
    assert AfterReserve(t, 1, "w", "0xb0b", 1_000_000, 7, IntentHashFor(DEPS.context, row, "0xb0b", 1_000_000)) ==
           Some(WithRow(t, PreparedFrom(row)));
    assert WithRow(t, PreparedFrom(row)).rows == map[1 := PreparedFrom(row)];
    Act(row, Reserving(row, DEPS, INTENT, 7, 7), {}, Committed, PreparedFrom(row), Building(row, DEPS, INTENT, 7), {});
  }

  lemma BuildsTx()
    ensures Build(1, "0x01", DEPS, INTENT, 1_000_000, 7, SEEN) == ToSign(TX)
  {
    assert Gas(SEEN, KMS) == 1000 && MaxFee(SEEN, KMS) == 1;
    EnvelopeRejectsOnlyZero(1, "0x01", DEPS, INTENT, 1_000_000, 7, SEEN);
  }

  lemma BuildTransaction(row: Row)
    requires IsFreshlyLeased(row) && Reachable(At(PreparedFrom(row), Building(row, DEPS, INTENT, 7), {}))
    ensures Reachable(At(PreparedFrom(row), AwaitingSignature(row, DEPS, INTENT, TX), {}))
  {
    OneUsdc();
    BuildsTx();
    hide Reachable, Printed, ParseUsdc, Build, Assemble;
    assert PreparedFrom(row).txHash.None? && PreparedFrom(row).id == 1;
    hide PreparedFrom;
    Act(PreparedFrom(row), Building(row, DEPS, INTENT, 7), {}, ChainAnswered(SEEN), PreparedFrom(row),
        AwaitingSignature(row, DEPS, INTENT, TX), {});
  }

  lemma SignTransaction(row: Row)
    requires IsFreshlyLeased(row) && Reachable(At(PreparedFrom(row), AwaitingSignature(row, DEPS, INTENT, TX), {}))
    ensures Reachable(At(PreparedFrom(row), Recording(row, DEPS, INTENT, RAW), {(1, TX)}))
  {
    hide Reachable, Printed, Assemble;
    assert PreparedFrom(row).txHash.None? && PreparedFrom(row).id == 1;
    hide PreparedFrom;
    Act(PreparedFrom(row), AwaitingSignature(row, DEPS, INTENT, TX), {}, SignerSigned(0), PreparedFrom(row),
        Recording(row, DEPS, INTENT, RAW), {(1, TX)});
  }

  lemma Record(row: Row)
    requires IsFreshlyLeased(row) && Reachable(At(PreparedFrom(row), Recording(row, DEPS, INTENT, RAW), {(1, TX)}))
    ensures Reachable(At(SignedFrom(row), Broadcasting(row, DEPS, RAW, Some(INTENT)), {(1, TX)}))
  {
    hide Reachable, Printed, Assemble, IntentHashFor;
    var t := At(PreparedFrom(row), Recording(row, DEPS, INTENT, RAW), {(1, TX)}).tables;
    assert t.transactions + {(1, KeccakOf(RAW))} == {(1, KeccakOf(RAW))};
    assert WithRow(t, SignedFrom(row)).rows == map[1 := SignedFrom(row)];
    Act(PreparedFrom(row), Recording(row, DEPS, INTENT, RAW), {(1, TX)}, Committed, SignedFrom(row),
        Broadcasting(row, DEPS, RAW, Some(INTENT)), {(1, TX)});
  }

  lemma ReadyToBuild() returns (row: Row)
    ensures IsFreshlyLeased(row) && Reachable(At(PreparedFrom(row), Building(row, DEPS, INTENT, 7), {}))
  {
    hide *;
    row := Claimed();
    ResolveAndRoute(row);
    ParseAndLock(row);
    PickNonce(row);
    Reserve(row);
  }

  lemma ReadyToRecord() returns (row: Row)
    ensures IsFreshlyLeased(row) && Reachable(At(PreparedFrom(row), Recording(row, DEPS, INTENT, RAW), {(1, TX)}))
  {
    hide *;
    row := ReadyToBuild();
    BuildTransaction(row);
    SignTransaction(row);
  }

  lemma ReadyToBroadcast() returns (row: Row)
    ensures IsFreshlyLeased(row) && Reachable(At(SignedFrom(row), Broadcasting(row, DEPS, RAW, Some(INTENT)),
                                                 {(1, TX)}))
  {
    hide *;
    row := ReadyToRecord();
    Record(row);
  }

  /** A world after the bytes have gone out. */
  function Out(row: Row, now: nat, workers: map<WorkerId, Busy>): World {
    World(Tables(map[1 := row], {(1, KeccakOf(RAW))}), now, workers, Chain(map[], map[]), {(1, RAW)}, {(1, TX)})
  }

  predicate HoldsBytes(row: Row) {
    && row.id == 1 && row.account == "0xac" && row.txNonce == Some(7)
    && row.signedRawTransaction == Some(RAW) && row.txHash == Some(KeccakOf(RAW))
  }

  // -- A nonce handed out again ------------------------------------------------------------------

  lemma AmbiguousBroadcast(row: Row) returns (unknown: Row)
    requires IsFreshlyLeased(row) && Reachable(At(SignedFrom(row), Broadcasting(row, DEPS, RAW, Some(INTENT)),
                                                  {(1, TX)}))
    ensures HoldsBytes(unknown) && unknown.state == Unknown && unknown.leaseUntil.None?
            && Reachable(Out(unknown, 0, map[]))
  {
    hide Reachable, Printed, Assemble, IntentHashFor;
    var signed := SignedFrom(row);
    assert HoldsBytes(signed) && signed.leaseOwner == Some("w");
    hide SignedFrom;
    var w0, e0 := At(signed, Broadcasting(row, DEPS, RAW, Some(INTENT)), {(1, TX)}), Acts("w", BroadcastAmbiguous);
    var w1 := Out(signed, 0, map["w" := Busy(MarkingError(row), signed)]);
    assert Enabled(LINKS, None, w0, e0);
    assert Apply(LINKS, None, w0, e0) == w1;
    Extend(w0, e0, w1);
    unknown := NoteAndFinish(row, signed);
  }

  lemma NoteAndFinish(job: Row, signed: Row) returns (unknown: Row)
    requires job.id == 1 && HoldsBytes(signed) && signed.leaseOwner == Some("w")
             && Reachable(Out(signed, 0, map["w" := Busy(MarkingError(job), signed)]))
    ensures HoldsBytes(unknown) && unknown.state == Unknown && unknown.leaseUntil.None?
            && Reachable(Out(unknown, 0, map[]))
  {
    hide Reachable, Assemble;
    var noted := signed.(lastBroadcastError := Some(BROADCAST_AMBIGUOUS));
    assert BROADCAST_AMBIGUOUS[..Min(|BROADCAST_AMBIGUOUS|, 100)] == BROADCAST_AMBIGUOUS;
    var result := Plain(Unknown, BROADCAST_AMBIGUOUS);
    var w1, w2 := Out(signed, 0, map["w" := Busy(MarkingError(job), signed)]),
        Out(noted, 0, map["w" := Busy(Finishing(job, result, None), noted)]);
    assert AfterBroadcastError(w1.tables, 1, "w", BROADCAST_AMBIGUOUS) == w2.tables;
    Extend(w1, Acts("w", Committed), w2);
    unknown := FinishUnknown(job, noted);
  }

  lemma FinishUnknown(job: Row, noted: Row) returns (unknown: Row)
    requires job.id == 1 && HoldsBytes(noted) && noted.leaseOwner == Some("w")
    requires Reachable(Out(noted, 0, map["w" := Busy(Finishing(job, Plain(Unknown, BROADCAST_AMBIGUOUS), None),
                                                     noted)]))
    ensures HoldsBytes(unknown) && unknown.state == Unknown && unknown.leaseUntil.None?
            && Reachable(Out(unknown, 0, map[]))
  {
    hide Reachable, Assemble;
    var result := Plain(Unknown, BROADCAST_AMBIGUOUS);
    var w2 := Out(noted, 0, map["w" := Busy(Finishing(job, result, None), noted)]);
    unknown := noted.(state := Unknown, rule := None, attemptedUnits := None, headroomUnits := None,
                      errorCode := Column(result.errorCode), leaseOwner := None, leaseUntil := None);
    assert AfterFinish(w2.tables, 1, "w", result) == Some(WithRow(w2.tables, unknown));
    Extend(w2, Acts("w", Committed), Out(unknown, 0, map[]));
  }

  /**
   * The nonce column is described as never reused while a signed artifact exists. A row whose broadcast
   * was ambiguous leaves the maximum, so while the node's pending count lacks its bytes the next request
   * of the same signer is given its nonce.
   */
  lemma NonceOfUnknownIsReused(next: RowId) returns (w: World, row: Row)
    requires next != 1
    ensures Reachable(w) && 1 in w.tables.rows && row == w.tables.rows[1] && row.account in LINKS
    ensures row.state == Unknown && row.txNonce == Some(7) && row.signedRawTransaction.Some?
            && (1, row.signedRawTransaction.value) in w.sent
    ensures NextNonce(w.tables.rows, LINKS, SignerOf(row, LINKS), next, 7) == 7
  {
    var job := ReadyToBroadcast();
    row := AmbiguousBroadcast(job);
    w := Out(row, 0, map[]);
    hide Reachable, IsFreshlyLeased, NextNonce;
    NothingInFlight(w.tables.rows, SignerOf(row, LINKS), next, 7);
  }

  /**
   * Exactly when a nonce held before is handed out again: no other row in flight is at or above it, the
   * pending count is not above it, and it is the pending count or the successor of one in flight.
   */
  lemma NonceIsReusedExactlyWhen(rows: Rows, links: Links, signer: string, id: RowId, pendingNonce: nat, held: nat)
    ensures NextNonce(rows, links, signer, id, pendingNonce) == held <==>
            && pendingNonce <= held
            && (forall other :: other in rows && other != id && HoldsNonce(rows[other], links, signer) ==>
                  rows[other].txNonce.value < held)
            && (pendingNonce == held || exists other ::
                  other in rows && other != id && HoldsNonce(rows[other], links, signer)
                  && rows[other].txNonce.value + 1 == held)
  {
    hide SignerOf, InFlight;
    var nonce := NextNonce(rows, links, signer, id, pendingNonce);
    if pendingNonce < nonce {
      var other :| other in rows && other != id && HoldsNonce(rows[other], links, signer)
          && rows[other].txNonce.value + 1 == nonce;
    }
  }
}
