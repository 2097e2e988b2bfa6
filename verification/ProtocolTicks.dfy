/** Where a tick goes: from a claimed row to the broadcast of its payment, and every other way on. */
module ProtocolTicks {
  import opened Prelude
  import opened Amount
  import opened Instruction
  import opened Payments
  import opened Envelope
  import opened EnvelopeExact
  import opened Reconcile
  import opened Journal
  import opened Worker
  import opened Protocol
  import opened ProtocolInvariant

  // -- The dispatch ------------------------------------------------------------------------------

  /**
   * A claimed row goes on from where it stands. An unknown row whose receipt is there is reconciled
   * without being sent again; any other row with bytes has exactly those sent again; a prepared row is
   * built again under its own nonce and intent; a queued one is read for the first time.
   */
  lemma DispatchIsExact(links: Links, chain: Chain, t: Tables, worker: WorkerId, job: Row, deps: Dependencies,
                        present: bool)
    requires GoodRow(links, chain, job) && job.leaseOwner.Some? && Resolves(links, job, deps)
    ensures var next := Think(t, links, worker, Routing(job, deps), ReceiptProbed(present));
            && next.Some?
            && (job.state == Queued ==> next.value == Parsing(job, deps))
            && (job.state == SigningPrepared ==>
                  && next.value.Building? && next.value.job == job && next.value.deps == deps
                  && Some(next.value.nonce) == job.txNonce && IntentOf(next.value.intent, job))
            && (job.state == Unknown && present ==>
                  && next.value.Reconciling? && next.value.job == job && next.value.deps == deps
                  && Some(next.value.hash) == job.txHash && next.value.note.None? && IntentOf(next.value.intent, job))
            && (job.state in {Signed, Submitted} || (job.state == Unknown && !present) ==>
                  && next.value.Broadcasting? && next.value.job == job && next.value.deps == deps
                  && Some(next.value.raw) == job.signedRawTransaction && next.value.provided.None?)
  {
    RouteIsGood(links, chain, job, deps, present);
    RoutingThinks(t, links, worker, job, deps, present);
    hide Resolves, Shown, PaysRow, StoredIntent, IntentOf, Think, SameRequest, Proves;
  }

  lemma RoutingThinks(t: Tables, links: Links, worker: WorkerId, job: Row, deps: Dependencies, present: bool)
    ensures Think(t, links, worker, Routing(job, deps), ReceiptProbed(present)) == Route(job, deps, present)
  {
    hide Route;
  }

  /** The row names a recipient and an amount that can be printed. */
  predicate NamesPayment(job: Row) {
    && job.parsedRecipient.Some? && job.parsedRecipient.value != ""
    && job.parsedAmount.Some? && job.parsedAmount.value <= MAX_UINT256
  }

  /**
   * A row without bytes, of whatever history, is never sent. With a hash it is asked about under that
   * hash, or left unknown when it names no payment; without one it is built again when it is prepared in
   * full, read when it is queued, and otherwise left unknown as ambiguous.
   */
  lemma RowsWithoutBytesAreNotSent(t: Tables, links: Links, worker: WorkerId, job: Row, deps: Dependencies,
                                   present: bool)
    requires job.signedRawTransaction.None? && (job.parsedAmount.Some? ==> job.parsedAmount.value <= MAX_UINT256)
    ensures var next := Think(t, links, worker, Routing(job, deps), ReceiptProbed(present));
            && next.Some? && next.value.job == job
            && (job.txHash.Some? && NamesPayment(job) ==>
                  && next.value.Reconciling? && Some(next.value.hash) == job.txHash && next.value.note.None?
                  && Some(next.value.intent.recipient) == job.parsedRecipient)
            && (job.txHash.Some? && !NamesPayment(job) ==> LeavesUnknown(next.value, "RECONCILIATION_PENDING"))
            && (job.txHash.None? && job.state == SigningPrepared && NamesPayment(job) && job.txNonce.Some? ==>
                  && next.value.Building? && Some(next.value.nonce) == job.txNonce
                  && Some(next.value.intent.recipient) == job.parsedRecipient)
            && (job.txHash.None? && job.state == Queued ==> next.value.Parsing?)
            && (job.txHash.None? && job.state != Queued
                && !(job.state == SigningPrepared && NamesPayment(job) && job.txNonce.Some?) ==>
                  LeavesUnknown(next.value, "AMBIGUOUS_SIGNING_STATE"))
  {
    RoutingThinks(t, links, worker, job, deps, present);
    hide Think, FullFraction, StripZeros;
  }

  predicate LeavesUnknown(phase: Phase, code: string) {
    phase.Finishing? && phase.retry.None? && phase.result == FinishResult(Unknown, None, None, None, Some(code))
  }

  // -- A failed resolver -------------------------------------------------------------------------

  predicate StandsAt(s: string, part: string, i: int) {
    0 <= i <= |s| - |part| && s[i..i + |part|] == part
  }

  predicate Mentions(s: string, part: string) {
    exists i :: 0 <= i <= |s| && StandsAt(s, part, i)
  }

  lemma LaterStands(s: string, part: string, i: int)
    requires s != ""
    ensures i >= 0 ==> (StandsAt(s[1..], part, i) <==> StandsAt(s, part, i + 1))
  {
    if 0 <= i <= |s| - 1 - |part| {
      assert s[1..][i..i + |part|] == s[i + 1..i + 1 + |part|];
    }
  }

  lemma {:induction false} ContainsIsMentions(s: string, part: string)
    ensures Contains(s, part) <==> Mentions(s, part)
  {
    assert StandsAt(s, part, 0) <==> part <= s;
    if !(part <= s) && s != "" {
      ContainsIsMentions(s[1..], part);
      hide StandsAt;
      if Mentions(s[1..], part) {
        var i :| 0 <= i <= |s[1..]| && StandsAt(s[1..], part, i);
        LaterStands(s, part, i);
      }
      if Mentions(s, part) {
        var i :| 0 <= i <= |s| && StandsAt(s, part, i);
        LaterStands(s, part, i - 1);
      }
    }
  }

  /** What a resolver's error is reported as. */
  predicate IsResolverCode(detail: string, code: string) {
    if Mentions(detail, "policy migration") then code == "AGENT_POLICY_MIGRATION_REQUIRED"
    else if Mentions(detail, "different signer backend") || Mentions(detail, "requires aws_kms") then
      code == "SIGNER_PROVIDER_MISMATCH"
    else if Mentions(detail, "context not found") then code == "SIGNER_CONTEXT_NOT_FOUND"
    else code == "SIGNER_CONTEXT_UNAVAILABLE"
  }

  /** A resolver's failure ends the row, with a code for what it says and nothing else. */
  lemma ResolverFailureIsExact(t: Tables, links: Links, worker: WorkerId, job: Row, detail: string)
    ensures var next := Think(t, links, worker, Resolving(job), ResolverFailed(detail));
            && next.Some? && next.value.Finishing? && next.value.job == job && next.value.retry.None?
            && next.value.result.state == SignerBlocked && next.value.result.errorCode.Some?
            && IsResolverCode(detail, next.value.result.errorCode.value)
            && next.value.result.rule.None? && next.value.result.attemptedUnits.None?
               && next.value.result.headroomUnits.None?
  {
    ContainsIsMentions(detail, "policy migration");
    ContainsIsMentions(detail, "different signer backend");
    ContainsIsMentions(detail, "requires aws_kms");
    ContainsIsMentions(detail, "context not found");
    hide Contains, Mentions;
  }

  // -- What is built is signed or blocked --------------------------------------------------------

  /** What is wrong with a payment ends its row, with the amount that was to be paid; else it goes to the signer. */
  lemma BuildingIsExact(t: Tables, links: Links, worker: WorkerId, job: Row, deps: Dependencies, intent: PaymentIntent,
                        nonce: nat, seen: ChainReads, amount: nat)
    requires ParseUsdc(intent.amountUsdc) == Ok(amount)
    ensures var next := Think(t, links, worker, Building(job, deps, intent, nonce), ChainAnswered(seen));
            var outcome := Build(job.mandateId, job.requestId, deps, intent, amount, nonce, seen);
            && (outcome.ToSign? ==> next == Some(AwaitingSignature(job, deps, intent, outcome.tx)))
            && (outcome.Blocked? ==>
                  && next.Some? && next.value.Finishing? && next.value.job == job && next.value.retry.None?
                  && next.value.result.state == SignerBlocked && next.value.result.errorCode == Some(outcome.code)
                  && next.value.result.attemptedUnits == Some(amount)
                  && next.value.result.rule.None? && next.value.result.headroomUnits.None?)
  {
    hide ParseUsdc, Build;
  }

  // -- An ambiguous broadcast and a failed finish ------------------------------------------------

  /** An ambiguous broadcast is noted and leaves the row unknown; a used nonce is reconciled under the same hash. */
  lemma OtherBroadcastsAreExact(t: Tables, links: Links, worker: WorkerId, job: Row, deps: Dependencies, raw: RawTx,
                                intent: PaymentIntent)
    ensures Think(t, links, worker, Broadcasting(job, deps, raw, Some(intent)), NonceTooLow)
            == Some(Reconciling(job, deps, KeccakOf(raw), Some("NONCE_TOO_LOW"), intent))
    ensures Think(t, links, worker, Broadcasting(job, deps, raw, Some(intent)), BroadcastAmbiguous) ==
            Some(MarkingError(job))
    ensures var next := AfterStatement(MarkingError(job));
            && next.Some? && next.value.Finishing? && next.value.job == job && next.value.retry.None?
            && next.value.result == FinishResult(Unknown, None, None, None, Some("BROADCAST_AMBIGUOUS"))
    ensures Statement(t, worker, MarkingError(job)).Some?
    ensures Owns(t, job.id, worker) ==>
              var after := Statement(t, worker, MarkingError(job)).value;
              after == WithRow(t, t.rows[job.id].(lastBroadcastError := Some("BROADCAST_AMBIGUOUS")))
  {
    assert BROADCAST_AMBIGUOUS[..Min(|BROADCAST_AMBIGUOUS|, 100)] == "BROADCAST_AMBIGUOUS";
  }

  /** A finish that fails, or of which nothing is heard, is followed by what the worker has left to say, if anything. */
  lemma FailedFinishIsRetried(t: Tables, links: Links, worker: WorkerId, view: Row, job: Row, result: FinishResult,
                              retry: Option<FinishResult>)
    ensures var b := Busy(Finishing(job, result, retry), view);
            && Advance(t, links, worker, b, Rejected).tables == t
            && (retry.None? ==> Advance(t, links, worker, b, Rejected).next.None?)
            && (retry.Some? ==> Advance(t, links, worker, b,
                                        Rejected).next == Some(Busy(Finishing(job, retry.value, None), view)))
            && (retry.Some? && !Owns(t, job.id, worker) ==>
                  Advance(t, links, worker, b, Committed).next == Some(Busy(Finishing(job, retry.value, None), view)))
  {
  }

  // -- A whole tick ------------------------------------------------------------------------------

  /** A run of one worker's own steps, as long as it has one that the answer fits. */
  datatype Ticked = Ticked(tables: Tables, next: Option<Busy>, sent: seq<RawTx>, asked: seq<UnsignedTx>)

  function Listed<T>(item: Option<T>): seq<T> {
    match item
    case Some(x) => [x]
    case None => []
  }

  function Tick(t: Tables, links: Links, worker: WorkerId, b: Option<Busy>, answers: seq<Answer>): Ticked
    decreases |answers|
  {
    if answers == [] || b.None? || !Expects(b.value.phase, answers[0]) then Ticked(t, b, [], [])
    else
      var effect := Advance(t, links, worker, b.value, answers[0]);
      var rest := Tick(effect.tables, links, worker, effect.next, answers[1..]);
      Ticked(rest.tables, rest.next, Listed(effect.sent) + rest.sent, Listed(effect.asked) + rest.asked)
  }

  lemma TickStep(t: Tables, links: Links, worker: WorkerId, b: Busy, answer: Answer, answers: seq<Answer>, t': Tables,
                 next: Option<Busy>)
    requires Expects(b.phase, answer) && Advance(t, links, worker, b, answer) == Effect(t', next, None, None)
    ensures Tick(t, links, worker, Some(b), [answer] + answers) == Tick(t', links, worker, next, answers)
  {
    assert ([answer] + answers)[1..] == answers;
    var rest := Tick(t', links, worker, next, answers);
    assert [] + rest.sent == rest.sent && [] + rest.asked == rest.asked;
    hide Advance;
  }

  /** The row once its payment is decided. */
  predicate IsPrepared(job: Row, row: Row, intent: PaymentIntent, amount: nat, nonce: nat) {
    row == job.(state := SigningPrepared, parsedRecipient := Some(intent.recipient), parsedAmount := Some(amount),
                attemptedUnits := Some(amount), txNonce := Some(nonce), unsignedIntentHash := row.unsignedIntentHash,
                lastBroadcastError := None)
  }

  /** The row once its bytes have been accepted. */
  predicate IsSubmitted(prepared: Row, row: Row, raw: RawTx, keyArn: string) {
    row == prepared.(state := Submitted, signedRawTransaction := Some(raw), txHash := Some(KeccakOf(raw)),
                     signingKeyArn := Some(keyArn), lastBroadcastError := None)
  }

  function ReadingAnswers(deps: Dependencies, present: bool, model: Option<ModelAnswer>): seq<Answer> {
    [ResolverGave(deps)] + ([ReceiptProbed(present)] + ([ModelSaid(model)] + []))
  }

  /** Reading: a queued row whose instruction is a payment goes on to be prepared with that payment. */
  lemma TickReads(t: Tables, links: Links, worker: WorkerId, job: Row, deps: Dependencies, present: bool,
                  model: Option<ModelAnswer>, answers: seq<Answer>)
    requires job.state == Queued && job.signedRawTransaction.None? && job.txHash.None?
    requires ParseInstruction(job.text, deps.recipients, model, deps.allowAny, deps.checksum).Payment?
    ensures var intent := ParseInstruction(job.text, deps.recipients, model, deps.allowAny, deps.checksum).intent;
            Tick(t, links, worker, Some(Busy(Resolving(job), job)),
                 [ResolverGave(deps)] + ([ReceiptProbed(present)] + ([ModelSaid(model)] + answers)))
            == Tick(t, links, worker, Some(Busy(Preparing(job, deps, intent), job)), answers)
  {
    hide ParseInstruction, Tick;
    var intent := ParseInstruction(job.text, deps.recipients, model, deps.allowAny, deps.checksum).intent;
    TickStep(t, links, worker, Busy(Resolving(job), job), ResolverGave(deps),
             [ReceiptProbed(present)] + ([ModelSaid(model)] + answers), t, Some(Busy(Routing(job, deps), job)));
    TickStep(t, links, worker, Busy(Routing(job, deps), job), ReceiptProbed(present), [ModelSaid(model)] + answers, t,
             Some(Busy(Parsing(job, deps), job)));
    TickStep(t, links, worker, Busy(Parsing(job, deps), job), ModelSaid(model), answers, t,
             Some(Busy(Preparing(job, deps, intent), job)));
  }

  /** Preparing: the nonce above all in flight, and the row's intent, in one statement. */
  lemma TickPrepares(t: Tables, links: Links, worker: WorkerId, job: Row, deps: Dependencies, intent: PaymentIntent,
                     pending: nat, answers: seq<Answer>)
    returns (prepared: Row)
    requires Owns(t, job.id, worker) && t.rows[job.id] == job && job.state == Queued && ParseUsdc(intent.amountUsdc).Ok?
    ensures IsPrepared(job, prepared, intent, ParseUsdc(intent.amountUsdc).value,
                       NextNonce(t.rows, links, Lower(deps.signer), job.id, pending))
    ensures Tick(t, links, worker, Some(Busy(Preparing(job, deps, intent), job)),
                 [Committed] + ([PendingNonce(pending)] + ([Committed] + ([Committed] + answers))))
            == Tick(WithRow(t, prepared), links, worker,
                    Some(Busy(Building(job, deps, intent,
                                       NextNonce(t.rows, links, Lower(deps.signer), job.id, pending)), prepared)),
                                       answers)
  {
    hide ParseUsdc, Tick, NextNonce, Lower;
    var amount, nonce := ParseUsdc(intent.amountUsdc).value,
        NextNonce(t.rows, links, Lower(deps.signer), job.id, pending);
    TickStep(t, links, worker, Busy(Preparing(job, deps, intent), job), Committed,
             [PendingNonce(pending)] + ([Committed] + ([Committed] + answers)),
             t, Some(Busy(ReadingPending(job, deps, intent), job)));
    TickStep(t, links, worker, Busy(ReadingPending(job, deps, intent), job), PendingNonce(pending),
             [Committed] + ([Committed] + answers),
             t, Some(Busy(ReadingHighest(job, deps, intent, pending), job)));
    TickStep(t, links, worker, Busy(ReadingHighest(job, deps, intent, pending), job), Committed, [Committed] + answers,
             t, Some(Busy(Reserving(job, deps, intent, pending, nonce), job)));
    prepared := ReservedRow(t, links, worker, job, deps, intent, pending, nonce);
    TickStep(t, links, worker, Busy(Reserving(job, deps, intent, pending, nonce), job), Committed, answers,
             WithRow(t, prepared), Some(Busy(Building(job, deps, intent, nonce), prepared)));
  }

  lemma ReservedRow(t: Tables, links: Links, worker: WorkerId, job: Row, deps: Dependencies, intent: PaymentIntent,
                    pending: nat, nonce: nat) returns (prepared: Row)
    requires Owns(t, job.id, worker) && t.rows[job.id] == job && job.state == Queued && ParseUsdc(intent.amountUsdc).Ok?
    ensures IsPrepared(job, prepared, intent, ParseUsdc(intent.amountUsdc).value, nonce)
    ensures Advance(t, links, worker, Busy(Reserving(job, deps, intent, pending, nonce), job), Committed)
            == Effect(WithRow(t, prepared), Some(Busy(Building(job, deps, intent, nonce), prepared)), None, None)
  {
    hide ParseUsdc, IntentHashFor;
    var amount := ParseUsdc(intent.amountUsdc).value;
    prepared := AfterReserve(t, job.id, worker, intent.recipient, amount, nonce,
                             IntentHashFor(deps.context, job, intent.recipient, amount)).value.rows[job.id];
  }

  /** The row with its bytes. */
  predicate IsSigned(prepared: Row, row: Row, raw: RawTx, keyArn: string) {
    row == prepared.(state := Signed, signedRawTransaction := Some(raw), txHash := Some(KeccakOf(raw)),
                     signingKeyArn := Some(keyArn))
  }

  /** Signing: what is built goes to the signer, and what it signs is recorded. */
  lemma TickSigns(t: Tables, links: Links, worker: WorkerId, job: Row, deps: Dependencies, intent: PaymentIntent,
                  nonce: nat, prepared: Row,
                  seen: ChainReads, tx: UnsignedTx, signature: nat, answers: seq<Answer>) returns (signed: Row)
    requires prepared.id == job.id && Owns(t, job.id, worker) && t.rows[job.id] == prepared
             && prepared.state == SigningPrepared
    requires ParseUsdc(intent.amountUsdc).Ok?
    requires Build(job.mandateId, job.requestId, deps, intent, ParseUsdc(intent.amountUsdc).value, nonce, seen) ==
             ToSign(tx)
    ensures var raw := RawTx(tx, signature);
            var recorded := Tables(t.rows[job.id := signed], t.transactions + {(job.id, KeccakOf(raw))});
            var rest := Tick(recorded, links, worker, Some(Busy(Broadcasting(job, deps, raw, Some(intent)), signed)),
                             answers);
            && IsSigned(prepared, signed, raw, deps.kms.keyArn)
            && Tick(t, links, worker, Some(Busy(Building(job, deps, intent, nonce), prepared)),
                    [ChainAnswered(seen)] + ([SignerSigned(signature)] + ([Committed] + answers)))
               == rest.(asked := [tx] + rest.asked)
  {
    hide ParseUsdc, Build, Tick;
    var raw := RawTx(tx, signature);
    signed := prepared.(state := Signed, signedRawTransaction := Some(raw), txHash := Some(KeccakOf(raw)),
                        signingKeyArn := Some(deps.kms.keyArn));
    var recorded := Tables(t.rows[job.id := signed], t.transactions + {(job.id, KeccakOf(raw))});
    TickStep(t, links, worker, Busy(Building(job, deps, intent, nonce), prepared), ChainAnswered(seen),
             [SignerSigned(signature)] + ([Committed] + answers),
             t, Some(Busy(AwaitingSignature(job, deps, intent, tx), prepared)));
    AskedStep(t, links, worker, job, deps, intent, tx, signature, prepared, [Committed] + answers);
    TickStep(t, links, worker, Busy(Recording(job, deps, intent, raw), prepared), Committed, answers,
             recorded, Some(Busy(Broadcasting(job, deps, raw, Some(intent)), signed)));
  }

  /** Sending: the recorded bytes go out and the row is marked. */
  lemma TickSends(t: Tables, links: Links, worker: WorkerId, job: Row, deps: Dependencies, intent: PaymentIntent,
                  raw: RawTx, signed: Row)
    returns (submitted: Row)
    requires signed.id == job.id && Owns(t, job.id, worker) && t.rows[job.id] == signed && signed.state == Signed
    ensures submitted == signed.(state := Submitted, lastBroadcastError := None)
    ensures Tick(t, links, worker, Some(Busy(Broadcasting(job, deps, raw, Some(intent)), signed)),
                 [BroadcastAccepted] + ([Committed] + []))
            == Ticked(WithRow(t, submitted), Some(Busy(Reconciling(job, deps, KeccakOf(raw), None, intent), submitted)),
                      [raw], [])
  {
    hide Tick;
    submitted := signed.(state := Submitted, lastBroadcastError := None);
    SentStep(t, links, worker, job, deps, Some(intent), raw, signed, [Committed] + []);
    TickStep(t, links, worker, Busy(MarkingBroadcast(job, deps, raw, Some(intent)), signed), Committed, [],
             WithRow(t, submitted), Some(Busy(Reconciling(job, deps, KeccakOf(raw), None, intent), submitted)));
    TickEnds(WithRow(t, submitted), links, worker,
             Some(Busy(Reconciling(job, deps, KeccakOf(raw), None, intent), submitted)));
  }

  /** Paying: what is built is signed, recorded, sent and marked, and its own hash is what is asked about. */
  lemma TickPays(t: Tables, links: Links, worker: WorkerId, job: Row, deps: Dependencies, intent: PaymentIntent,
                 nonce: nat, prepared: Row,
                 seen: ChainReads, tx: UnsignedTx, signature: nat) returns (submitted: Row)
    requires prepared.id == job.id && Owns(t, job.id, worker) && t.rows[job.id] == prepared
             && prepared.state == SigningPrepared
    requires ParseUsdc(intent.amountUsdc).Ok?
    requires Build(job.mandateId, job.requestId, deps, intent, ParseUsdc(intent.amountUsdc).value, nonce, seen) ==
             ToSign(tx)
    ensures var raw := RawTx(tx, signature);
            && IsSubmitted(prepared, submitted, raw, deps.kms.keyArn)
            && Tick(t, links, worker, Some(Busy(Building(job, deps, intent, nonce), prepared)),
                    [ChainAnswered(seen)]
                      + ([SignerSigned(signature)] + ([Committed] + ([BroadcastAccepted] + ([Committed] + [])))))
               == Ticked(Tables(t.rows[job.id := submitted], t.transactions + {(job.id, KeccakOf(raw))}),
                         Some(Busy(Reconciling(job, deps, KeccakOf(raw), None, intent), submitted)), [raw], [tx])
  {
    hide ParseUsdc, Build, Tick;
    var raw := RawTx(tx, signature);
    var signed := TickSigns(t, links, worker, job, deps, intent, nonce, prepared, seen, tx, signature,
                            [BroadcastAccepted] + ([Committed] + []));
    var recorded := Tables(t.rows[job.id := signed], t.transactions + {(job.id, KeccakOf(raw))});
    submitted := TickSends(recorded, links, worker, job, deps, intent, raw, signed);
    assert recorded.rows[job.id := submitted] == t.rows[job.id := submitted];
    assert [tx] + [] == [tx];
  }

  lemma TickEnds(t: Tables, links: Links, worker: WorkerId, b: Option<Busy>)
    ensures Tick(t, links, worker, b, []) == Ticked(t, b, [], [])
  {
  }

  lemma AskedStep(t: Tables, links: Links, worker: WorkerId, job: Row, deps: Dependencies, intent: PaymentIntent,
                  tx: UnsignedTx, signature: nat, view: Row, answers: seq<Answer>)
    ensures var rest := Tick(t, links, worker, Some(Busy(Recording(job, deps, intent, RawTx(tx, signature)), view)),
                             answers);
            Tick(t, links, worker, Some(Busy(AwaitingSignature(job, deps, intent, tx), view)),
                 [SignerSigned(signature)] + answers)
            == rest.(asked := [tx] + rest.asked)
  {
    var rest := Tick(t, links, worker, Some(Busy(Recording(job, deps, intent, RawTx(tx, signature)), view)), answers);
    assert ([SignerSigned(signature)] + answers)[1..] == answers && [] + rest.sent == rest.sent;
  }

  lemma SentStep(t: Tables, links: Links, worker: WorkerId, job: Row, deps: Dependencies,
                 provided: Option<PaymentIntent>, raw: RawTx, view: Row, answers: seq<Answer>)
    ensures var rest := Tick(t, links, worker, Some(Busy(MarkingBroadcast(job, deps, raw, provided), view)), answers);
            Tick(t, links, worker, Some(Busy(Broadcasting(job, deps, raw, provided), view)),
                 [BroadcastAccepted] + answers)
            == rest.(sent := [raw] + rest.sent)
  {
    var rest := Tick(t, links, worker, Some(Busy(MarkingBroadcast(job, deps, raw, provided), view)), answers);
    assert ([BroadcastAccepted] + answers)[1..] == answers && [] + rest.asked == rest.asked;
  }

  // -- Sending again -----------------------------------------------------------------------------

  /** Marking a broadcast the worker did not sign itself: only a signed or submitted row takes the mark. */
  lemma MarkStep(t: Tables, links: Links, worker: WorkerId, job: Row, deps: Dependencies, raw: RawTx)
    requires Owns(t, job.id, worker) && t.rows[job.id] == job
    ensures var effect := Advance(t, links, worker, Busy(MarkingBroadcast(job, deps, raw, None), job), Committed);
            var marked := job.(state := Submitted, lastBroadcastError := None);
            effect == if job.state == Signed || job.state == Submitted then
                        Effect(WithRow(t, marked),
                               WithPhase(marked, StartReconcile(job, deps, KeccakOf(raw), None, None)), None, None)
                      else Effect(t, None, None, None)
  {
    hide StartReconcile;
  }

  lemma TickSendsAgain(t: Tables, links: Links, worker: WorkerId, job: Row, deps: Dependencies, raw: RawTx)
    requires Route(job, deps, false) == Some(Broadcasting(job, deps, raw, None))
    ensures var effect := Advance(t, links, worker, Busy(MarkingBroadcast(job, deps, raw, None), job), Committed);
            Tick(t, links, worker, Some(Busy(Resolving(job), job)),
                 [ResolverGave(deps)] + ([ReceiptProbed(false)] + ([BroadcastAccepted] + ([Committed] + []))))
            == Ticked(effect.tables, effect.next, [raw], [])
  {
    hide Route, Tick, Statement, StartReconcile;
    TickStep(t, links, worker, Busy(Resolving(job), job), ResolverGave(deps),
             [ReceiptProbed(false)] + ([BroadcastAccepted] + ([Committed] + [])), t,
             Some(Busy(Routing(job, deps), job)));
    TickStep(t, links, worker, Busy(Routing(job, deps), job), ReceiptProbed(false),
             [BroadcastAccepted] + ([Committed] + []), t, Some(Busy(Broadcasting(job, deps, raw, None), job)));
    SentStep(t, links, worker, job, deps, None, raw, job, [Committed] + []);
    var effect := Advance(t, links, worker, Busy(MarkingBroadcast(job, deps, raw, None), job), Committed);
    TickStep(t, links, worker, Busy(MarkingBroadcast(job, deps, raw, None), job), Committed, [], effect.tables,
             effect.next);
    TickEnds(effect.tables, links, worker, effect.next);
  }

  /** A row a run can hold, with bytes and without a receipt, goes to the broadcast of those bytes. */
  lemma LiveRowsAreSentAgain(links: Links, chain: Chain, job: Row, deps: Dependencies)
    requires GoodRow(links, chain, job) && job.leaseOwner.Some? && Resolves(links, job, deps)
             && job.state in {Signed, Submitted, Unknown}
    ensures job.signedRawTransaction.Some?
    ensures var raw := job.signedRawTransaction.value;
            && job.txHash == Some(KeccakOf(raw)) && Route(job, deps, false) == Some(Broadcasting(job, deps, raw, None))
    ensures var next := StartReconcile(job, deps, KeccakOf(job.signedRawTransaction.value), None, None);
            && next.Some? && next.value.Reconciling? && next.value.job == job && Some(next.value.hash) == job.txHash
            && next.value.note.None? && IntentOf(next.value.intent, job)
  {
    assert Live(job);
    LiveIntent(job);
    StoredIntentIsTheIntent(job, job);
    hide Resolves, PaysRow, StoredIntent, IntentOf, HasIntent;
  }

  /**
   * A row with bytes and no receipt has them sent again. When they are accepted, a signed or submitted row
   * is marked and its own hash is asked about. An unknown row is not: its guard takes the lease for lost,
   * and the tick ends with the row as it was, still leased.
   */
  lemma RebroadcastIsMarkedExactlyWhen(links: Links, chain: Chain, t: Tables, worker: WorkerId, job: Row,
                                       deps: Dependencies)
    requires GoodRow(links, chain, job) && Resolves(links, job, deps)
    requires Owns(t, job.id, worker) && t.rows[job.id] == job && job.state in {Signed, Submitted, Unknown}
    ensures var end := Tick(t, links, worker, Some(Busy(Resolving(job), job)),
                            [ResolverGave(deps)] + ([ReceiptProbed(false)] + ([BroadcastAccepted]
                                                                              + ([Committed] + []))));
            && job.signedRawTransaction.Some? && end.sent == [job.signedRawTransaction.value] && end.asked == []
            && (end.tables == WithRow(t, job.(state := Submitted, lastBroadcastError := None)) <==>
                  job.state != Unknown)
            && (job.state != Unknown ==>
                  && end.next.Some? && end.next.value.phase.Reconciling? && end.next.value.phase.job == job
                  && Some(end.next.value.phase.hash) == job.txHash && end.next.value.phase.note.None?
                  && IntentOf(end.next.value.phase.intent, job))
            && (job.state == Unknown ==> end.tables == t && end.next.None?)
  {
    LiveRowsAreSentAgain(links, chain, job, deps);
    var raw := job.signedRawTransaction.value;
    TickSendsAgain(t, links, worker, job, deps, raw);
    MarkStep(t, links, worker, job, deps, raw);
    hide GoodRow, Resolves, Tick, IntentOf, Advance, Route, StartReconcile;
    assert WithRow(t, job.(state := Submitted, lastBroadcastError := None)).rows[job.id].state == Submitted;
  }

  // -- A fresh payment ---------------------------------------------------------------------------

  /**
   * A fresh payment: a claimed queued row whose instruction is a payment, whose mandate and gas money are
   * in order, is prepared, signed, sent once and marked. What is signed pays the parsed amount to the
   * parsed recipient under the row's request and mandate, from the next nonce, at the clamped fees; the
   * row holds all of it, and the worker goes on to ask about the hash of what it sent.
   */
  lemma FreshPaymentIsSent(t: Tables, links: Links, worker: WorkerId, job: Row, deps: Dependencies, present: bool,
                           model: Option<ModelAnswer>,
                           pending: nat, seen: ChainReads, signature: nat, gas: nat, fee: nat, priority: nat)
    returns (prepared: Row, submitted: Row, tx: UnsignedTx)
    requires Owns(t, job.id, worker) && t.rows[job.id] == job && job.state == Queued && job.signedRawTransaction.None?
             && job.txHash.None?
    requires ParseInstruction(job.text, deps.recipients, model, deps.allowAny, deps.checksum).Payment?
    requires IsGas(gas, seen, deps.kms) && IsFee(fee, seen, deps.kms) && IsPriority(priority, fee, seen, deps.kms)
    requires IsMandated(job.mandateId, deps, seen) && IsCovered(gas, fee, deps, seen) && gas > 0 && fee > 0
    ensures var intent := ParseInstruction(job.text, deps.recipients, model, deps.allowAny, deps.checksum).intent;
            var nonce := NextNonce(t.rows, links, Lower(deps.signer), job.id, pending);
            var raw := RawTx(tx, signature);
            && ParseUsdc(intent.amountUsdc).Ok?
            && IsPrepared(job, prepared, intent, ParseUsdc(intent.amountUsdc).value, nonce)
            && IsSubmitted(prepared, submitted, raw, deps.kms.keyArn)
            && IsPayment(tx, job.mandateId, job.requestId, deps, intent, ParseUsdc(intent.amountUsdc).value, nonce)
            && tx.gas == gas && tx.maxFeePerGas == fee && tx.maxPriorityFeePerGas == priority
            && Tick(t, links, worker, Some(Busy(Resolving(job), job)),
                    FreshAnswers(deps, present, model, pending, seen, signature))
               == Ticked(Tables(t.rows[job.id := submitted], t.transactions + {(job.id, KeccakOf(raw))}),
                         Some(Busy(Reconciling(job, deps, KeccakOf(raw), None, intent), submitted)), [raw], [tx])
  {
    hide ParseInstruction, ParseUsdc, Tick, NextNonce, Lower, Build, IsGas, IsFee, IsPriority, IsMandated, IsCovered,
         Advance;
    var intent := ParseInstruction(job.text, deps.recipients, model, deps.allowAny, deps.checksum).intent;
    PaymentsAreContained(job.text, deps.recipients, model, deps.allowAny, deps.checksum);
    var amount := ParseUsdc(intent.amountUsdc).value;
    var nonce := NextNonce(t.rows, links, Lower(deps.signer), job.id, pending);
    var paying := [ChainAnswered(seen)] + ([SignerSigned(signature)]
                                           + ([Committed] + ([BroadcastAccepted] + ([Committed] + []))));
    TickReads(t, links, worker, job, deps, present, model,
              [Committed] + ([PendingNonce(pending)] + ([Committed] + ([Committed] + paying))));
    prepared := TickPrepares(t, links, worker, job, deps, intent, pending, paying);
    BuildsExactly(job.mandateId, job.requestId, deps, intent, amount, nonce, seen, gas, fee, priority);
    tx := Build(job.mandateId, job.requestId, deps, intent, amount, nonce, seen).tx;
    submitted := TickPays(WithRow(t, prepared), links, worker, job, deps, intent, nonce, prepared, seen, tx, signature);
    assert WithRow(t, prepared).rows[job.id := submitted] == t.rows[job.id := submitted];
  }

  function FreshAnswers(deps: Dependencies, present: bool, model: Option<ModelAnswer>, pending: nat, seen: ChainReads,
                        signature: nat): seq<Answer> {
    [ResolverGave(deps)] + ([ReceiptProbed(present)] + ([ModelSaid(model)]
      + ([Committed] + ([PendingNonce(pending)] + ([Committed] + ([Committed]
      + ([ChainAnswered(seen)] + ([SignerSigned(signature)]
                                  + ([Committed] + ([BroadcastAccepted] + ([Committed] + [])))))))))))
  }
}
