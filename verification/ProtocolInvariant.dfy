/** Every event keeps the invariant of the fleet. */
module ProtocolInvariant {
  import opened Prelude
  import opened Amount
  import opened Instruction
  import opened Payments
  import opened Envelope
  import opened Reconcile
  import opened Journal
  import opened Worker
  import opened Protocol
  import opened ProtocolMoves

  // -- What the steps of one worker establish ----------------------------------------------------

  /** The recorded amount survives being printed and parsed again. */
  lemma StoredIntentIsTheIntent(job: Row, view: Row)
    requires HasIntent(view) && job.parsedRecipient == view.parsedRecipient && job.parsedAmount == view.parsedAmount
    ensures StoredIntent(job).Ok? && StoredIntent(job).value.Some? && IntentOf(StoredIntent(job).value.value, view)
  {
    hide FormatUsdc, ParseUsdc;
    ParseOfFormat(view.parsedAmount.value);
  }

  lemma LiveIntent(view: Row)
    requires Live(view)
    ensures HasIntent(view)
  {
  }

  lemma StartedReconcileIsGood(links: Links, chain: Chain, job: Row, deps: Dependencies, hash: TxHash,
                               note: Option<string>, provided: Option<PaymentIntent>, view: Row)
    requires SameRequest(job, view) && view.leaseOwner.Some? && Live(view) && Resolves(links, job, deps)
             && view.txHash == Some(hash) && GoodProvided(provided, job, view) && IsNote(note)
    ensures var next := StartReconcile(job, deps, hash, note, provided);
            next.Some? && next.value.Reconciling? && GoodPhase(links, chain, next.value, view)
  {
    assert HasIntent(view) by { LiveIntent(view); }
    hide StoredIntent, IntentOf, HasIntent, Live, Resolves, SameRequest, GoodPhase;
    if provided.None? {
      StoredIntentIsTheIntent(job, view);
      ReconcilingIsGood(links, chain, job, deps, hash, note, StoredIntent(job).value.value, view);
    } else {
      ReconcilingIsGood(links, chain, job, deps, hash, note, provided.value, view);
    }
  }

  lemma ReconcilingIsGood(links: Links, chain: Chain, job: Row, deps: Dependencies, hash: TxHash, note: Option<string>,
                          intent: PaymentIntent, view: Row)
    requires SameRequest(job, view) && view.leaseOwner.Some? && Live(view) && Resolves(links, job, deps)
             && view.txHash == Some(hash) && IntentOf(intent, view) && IsNote(note)
    ensures GoodPhase(links, chain, Reconciling(job, deps, hash, note, intent), view)
  {
    hide IntentOf, Live, Resolves, SameRequest;
  }

  /** The dispatch meets only rows it has a branch for: neither ambiguous-state fallback is taken. */
  lemma RouteIsGood(links: Links, chain: Chain, job: Row, deps: Dependencies, present: bool)
    requires GoodRow(links, chain, job) && job.leaseOwner.Some? && Resolves(links, job, deps)
    ensures var next := Route(job, deps, present);
            next.Some? && !next.value.Finishing? && !HoldsLock(next.value) && GoodPhase(links, chain, next.value, job)
  {
    hide Resolves, Shown, PaysRow, Route, GoodPhase;
    if HasBytes(job) {
      LiveRouteIsGood(links, chain, job, deps, present);
    } else {
      UnsentRouteIsGood(links, chain, job, deps, present);
    }
  }

  lemma LiveRouteIsGood(links: Links, chain: Chain, job: Row, deps: Dependencies, present: bool)
    requires Live(job) && job.leaseOwner.Some? && Resolves(links, job, deps)
    ensures var next := Route(job, deps, present);
            next.Some? && !next.value.Finishing? && !HoldsLock(next.value) && GoodPhase(links, chain, next.value, job)
  {
    hide Resolves, PaysRow, StartReconcile, SameRequest;
    SameAsItself(job);
    StartedReconcileIsGood(links, chain, job, deps, job.txHash.value, None, None, job);
  }

  lemma UnsentRouteIsGood(links: Links, chain: Chain, job: Row, deps: Dependencies, present: bool)
    requires (job.state == Queued && Blank(job)) || (job.state == SigningPrepared && Prepared(job))
    requires job.leaseOwner.Some? && Resolves(links, job, deps)
    ensures var next := Route(job, deps, present);
            next.Some? && !next.value.Finishing? && !HoldsLock(next.value) && GoodPhase(links, chain, next.value, job)
  {
    hide Resolves, StoredIntent, StartReconcile, SameRequest, IntentOf;
    SameAsItself(job);
    if job.state == SigningPrepared {
      StoredIntentIsTheIntent(job, job);
    }
  }

  lemma SameAsItself(job: Row)
    ensures SameRequest(job, job)
  {
  }

  lemma ParsedIsGood(links: Links, chain: Chain, job: Row, deps: Dependencies, model: Option<ModelAnswer>)
    requires GoodRow(links, chain, job) && job.leaseOwner.Some? && job.state == Queued && Resolves(links, job, deps)
    ensures !HoldsLock(Parsed(job, deps, model)) && GoodPhase(links, chain, Parsed(job, deps, model), job)
  {
    hide ParseInstruction, ParseUsdc;
    var result := ParseInstruction(job.text, deps.recipients, model, deps.allowAny, deps.checksum);
    if result.Payment? {
      PaymentsAreContained(job.text, deps.recipients, model, deps.allowAny, deps.checksum);
      PaymentsNameSomeone(job.text, deps.recipients, model, deps.allowAny, deps.checksum);
    }
  }

  lemma BuiltIsGood(links: Links, chain: Chain, job: Row, deps: Dependencies, intent: PaymentIntent, nonce: nat,
                    seen: ChainReads, view: Row)
    requires GoodPhase(links, chain, Building(job, deps, intent, nonce), view)
    ensures var next := Built(job, deps, intent, nonce, seen);
            next.Some? && !HoldsLock(next.value) && GoodPhase(links, chain, next.value, view)
  {
    hide ParseUsdc, Build, IsBuildCode, SameRequest, Resolves;
    assert ParseUsdc(intent.amountUsdc) == Ok(view.parsedAmount.value);
    var amount := ParseUsdc(intent.amountUsdc).value;
    hide GoodPhase;
    var outcome := Build(job.mandateId, job.requestId, deps, intent, amount, nonce, seen);
    if outcome.ToSign? {
      SignableIsGood(links, chain, job, deps, intent, nonce, seen, view, amount);
    } else {
      BlockedByBuildCode(job.mandateId, job.requestId, deps, intent, amount, nonce, seen);
      BlockedIsGood(links, chain, job, deps, intent, nonce, view,
                    FinishResult(SignerBlocked, None, Some(amount), None, Some(outcome.code)));
    }
  }

  lemma SignableIsGood(links: Links, chain: Chain, job: Row, deps: Dependencies, intent: PaymentIntent, nonce: nat,
                       seen: ChainReads, view: Row, amount: nat)
    requires GoodPhase(links, chain, Building(job, deps, intent, nonce), view)
             && ParseUsdc(intent.amountUsdc) == Ok(amount)
    requires Build(job.mandateId, job.requestId, deps, intent, amount, nonce, seen).ToSign?
    ensures GoodPhase(links, chain, AwaitingSignature(job, deps, intent,
                                                      Build(job.mandateId, job.requestId, deps, intent, amount, nonce,
                                                            seen).tx), view)
  {
    SignedCostIsCovered(job.mandateId, job.requestId, deps, intent, amount, nonce, seen);
    hide ParseUsdc, Build, Lower;
  }

  lemma BlockedIsGood(links: Links, chain: Chain, job: Row, deps: Dependencies, intent: PaymentIntent, nonce: nat,
                      view: Row, result: FinishResult)
    requires GoodPhase(links, chain, Building(job, deps, intent, nonce), view)
    requires result.state == SignerBlocked && IsBuildCode(result.errorCode)
    ensures GoodPhase(links, chain, Finishing(job, result, None), view)
  {
    hide ParseUsdc, SameText, IsBuildCode;
  }

  lemma BlockedByBuildCode(mandateId: nat, requestId: string, deps: Dependencies, intent: PaymentIntent, amount: nat,
                           nonce: nat, seen: ChainReads)
    ensures var outcome := Build(mandateId, requestId, deps, intent, amount, nonce, seen);
            outcome.Blocked? ==> IsBuildCode(Some(outcome.code))
  {
    hide ValidateSignerEnvelope, Gas, MaxFee, Assemble, SameText;
  }

  lemma ReconciledIsGood(links: Links, chain: Chain, job: Row, deps: Dependencies, hash: TxHash, note: Option<string>,
                         intent: PaymentIntent, view: Row)
    requires GoodPhase(links, chain, Reconciling(job, deps, hash, note, intent), view) && GoodRow(links, chain, view)
    requires hash in chain.receipts
    ensures GoodPhase(links, chain, Reconciled(job, deps, note, intent, chain.receipts[hash],
                                               RecordAt(chain, KeyOf(job))), view)
  {
    hide ParseUsdc, ReconcilePayment, Proves, PaysRow, SameText, KeyOf;
    assert KeyOf(job) == KeyOf(view) by { SameKey(job, view); }
    var receipt, stored := chain.receipts[hash], RecordAt(chain, KeyOf(job));
    var result := ReconcilePayment(deps.context, job.requestId, job.mandateId, intent, receipt, stored);
    if result.Ok? {
      var amount, outcome := view.parsedAmount.value, result.value.state;
      ReportedIffProved(deps.context, job.requestId, job.mandateId, intent, receipt, stored, outcome);
      ProofIgnoresSpelling(receipt, stored, deps.context.account, view.account, deps.context.agentAddress,
                           links[view.account].agentAddress,
                           job.requestId, job.mandateId, intent.recipient, amount, outcome);
      assert Shown(links, chain, view, outcome);
    }
  }

  lemma SameKey(a: Row, b: Row)
    requires SameRequest(a, b)
    ensures KeyOf(a) == KeyOf(b)
  {
  }

  lemma ResolverCodesAreNotBuildCodes(detail: string)
    ensures !IsBuildCode(Some(ResolverErrorCode(detail)))
  {
    var code := ResolverErrorCode(detail);
    assert |MANDATE_NOT_ACTIVE| == 18 && |MANDATE_AGENT_MISMATCH| == 22 && |AGENT_GAS_INSUFFICIENT| == 22
           && |SIGNER_ENVELOPE_REJECTED| == 24;
    assert |"AGENT_POLICY_MIGRATION_REQUIRED"| == 31 && |"SIGNER_CONTEXT_UNAVAILABLE"| == 26
           && |"SIGNER_CONTEXT_NOT_FOUND"| == 24 && |"SIGNER_PROVIDER_MISMATCH"| == 24;
    assert SIGNER_ENVELOPE_REJECTED[7] == 'E' && "SIGNER_CONTEXT_NOT_FOUND"[7] == 'C'
           && "SIGNER_PROVIDER_MISMATCH"[7] == 'P';
  }

  // -- Steps that write nothing ------------------------------------------------------------------

  /** Everything a step needs to know about the worker that takes it. */
  ghost predicate Acting(links: Links, w: World, worker: WorkerId, answer: Answer) {
    && worker in w.workers && Fenced(links, w, worker)
    && Answers(links, w, w.workers[worker].phase, answer)
  }

  lemma EarlyThoughtMoves(links: Links, w: World, worker: WorkerId, answer: Answer)
    requires Acting(links, w, worker, answer) && !answer.Crashed?
    requires var p := w.workers[worker].phase; p.Resolving? || p.Routing? || p.Parsing?
    ensures var b := w.workers[worker];
            MovesTo(links, w, worker, WithPhase(b.view, Think(w.tables, links, worker, b.phase, answer)))
  {
    hide Later, Route, Parsed, Resolves, GoodState, ParseUsdc;
    var Busy(phase, view) := w.workers[worker];
    match phase {
      case Resolving(job) =>
        if answer.ResolverFailed? {
          ResolverCodesAreNotBuildCodes(answer.detail);
        }
        hide IsBuildCode, ResolverErrorCode;
      case Routing(job, deps) => RouteIsGood(links, w.chain, job, deps, answer.present);
      case Parsing(job, deps) => ParsedIsGood(links, w.chain, job, deps, answer.model);
      case _ =>
    }
  }

  lemma PreparingThoughtMoves(links: Links, w: World, worker: WorkerId, answer: Answer)
    requires Acting(links, w, worker, answer) && !answer.Crashed?
    requires w.workers[worker].phase.Preparing? && LockFree(w, worker, Lower(w.workers[worker].phase.deps.signer))
    ensures var b := w.workers[worker];
            MovesTo(links, w, worker, WithPhase(b.view, Think(w.tables, links, worker, b.phase, answer)))
  {
    hide Later, Resolves, GoodRow, ParseUsdc, LockFree, IntentHashFor;
    var view := w.workers[worker].view;
    if Owns(w.tables, view.id, worker) {
      assert w.tables.rows[view.id] == view;
    }
  }

  lemma LockedThoughtMoves(links: Links, w: World, worker: WorkerId, answer: Answer)
    requires Acting(links, w, worker, answer) && !answer.Crashed? && LocksExclusive(w)
    requires var p := w.workers[worker].phase; p.ReadingPending? || p.ReadingHighest?
    ensures var b := w.workers[worker];
            MovesTo(links, w, worker, WithPhase(b.view, Think(w.tables, links, worker, b.phase, answer)))
  {
    hide Later, Resolves, GoodRow, ParseUsdc, LockFree;
    var Busy(phase, view) := w.workers[worker];
    if phase.ReadingHighest? {
      var signer := Lower(phase.deps.signer);
      var nonce := NextNonce(w.tables.rows, links, signer, phase.job.id, phase.pendingNonce);
      hide NextNonce;
      assert NonceAbove(links, w.tables.rows, signer, nonce);
    }
  }

  lemma SigningThoughtMoves(links: Links, w: World, worker: WorkerId, answer: Answer)
    requires Acting(links, w, worker, answer) && !answer.Crashed?
    requires var p := w.workers[worker].phase; p.Building? || p.AwaitingSignature?
    ensures var b := w.workers[worker];
            MovesTo(links, w, worker, WithPhase(b.view, Think(w.tables, links, worker, b.phase, answer)))
            && Leaves(b, Sent(b.phase), Asked(b.phase))
  {
    hide Later, Built, Resolves, PaysRow, IntentOf, GoodRow;
    var Busy(phase, view) := w.workers[worker];
    match phase {
      case Building(job, deps, intent, nonce) =>
        BuiltIsGood(links, w.chain, job, deps, intent, nonce, answer.seen, view);
      case _ =>
    }
  }

  lemma BroadcastThoughtMoves(links: Links, w: World, worker: WorkerId, answer: Answer)
    requires Acting(links, w, worker, answer) && !answer.Crashed?
    requires w.workers[worker].phase.Broadcasting?
    ensures var b := w.workers[worker];
            MovesTo(links, w, worker, WithPhase(b.view, Think(w.tables, links, worker, b.phase, answer)))
            && Leaves(b, Sent(b.phase), Asked(b.phase))
  {
    var b := w.workers[worker];
    assert Fenced(links, w, worker) && Expects(b.phase, answer);
    assert GoodPhase(links, w.chain, b.phase, b.view);
    hide Acting, Fenced, GoodPhase, Think, Expects, MovesTo, Leaves;
    CrashLeaves(links, w, worker);
    BroadcastNextIsGood(links, w.chain, w.tables, worker, b, answer);
    LocklessMoves(links, w, worker, Think(w.tables, links, worker, b.phase, answer));
  }

  lemma LocklessMoves(links: Links, w: World, worker: WorkerId, next: Option<Phase>)
    requires worker in w.workers
    requires next.Some? ==> !HoldsLock(next.value) && GoodPhase(links, w.chain, next.value, w.workers[worker].view)
    ensures MovesTo(links, w, worker, WithPhase(w.workers[worker].view, next))
  {
    hide GoodPhase;
  }

  lemma BroadcastNextIsGood(links: Links, chain: Chain, t: Tables, worker: WorkerId, b: Busy, answer: Answer)
    requires Expects(b.phase, answer) && !answer.Crashed? && b.phase.Broadcasting?
             && GoodPhase(links, chain, b.phase, b.view)
    ensures var next := Think(t, links, worker, b.phase, answer);
            next.Some? && !HoldsLock(next.value) && GoodPhase(links, chain, next.value, b.view)
  {
    hide StartReconcile, Resolves, Live, GoodProvided, SameRequest;
    BroadcastGoesOn(t, links, worker, b.phase, answer);
    hide Think;
    var Busy(Broadcasting(job, deps, raw, provided), view) := b;
    if answer.NonceTooLow? {
      LiveHash(view);
      hide GoodPhase;
      StartedReconcileIsGood(links, chain, job, deps, KeccakOf(raw), Some(NONCE_TOO_LOW), provided, view);
    }
  }

  /** The three ways on from a broadcast. */
  lemma BroadcastGoesOn(t: Tables, links: Links, worker: WorkerId, phase: Phase, answer: Answer)
    requires Expects(phase, answer) && !answer.Crashed? && phase.Broadcasting?
    ensures Think(t, links, worker, phase, answer) ==
            if answer.BroadcastAccepted? then Some(MarkingBroadcast(phase.job, phase.deps, phase.raw, phase.provided))
            else if answer.NonceTooLow? then StartReconcile(phase.job, phase.deps, KeccakOf(phase.raw),
                                                            Some(NONCE_TOO_LOW), phase.provided)
            else Some(MarkingError(phase.job))
  {
    hide StartReconcile;
  }

  lemma ReconcilingThoughtMoves(links: Links, w: World, worker: WorkerId, answer: Answer)
    requires Acting(links, w, worker, answer) && !answer.Crashed?
    requires w.workers[worker].phase.Reconciling?
    ensures var b := w.workers[worker];
            MovesTo(links, w, worker, WithPhase(b.view, Think(w.tables, links, worker, b.phase, answer)))
  {
    hide Later, Reconciled, Resolves, GoodRow, IntentOf, Live;
    var Busy(Reconciling(job, deps, hash, note, intent), view) := w.workers[worker];
    if answer.ReceiptArrived? {
      ReconciledIsGood(links, w.chain, job, deps, hash, note, intent, view);
      ReconciledFinishes(job, deps, note, intent, answer.receipt, answer.stored);
    }
  }

  lemma ReconciledFinishes(job: Row, deps: Dependencies, note: Option<string>, intent: PaymentIntent, receipt: Receipt,
                           stored: StoredRequest)
    ensures Reconciled(job, deps, note, intent, receipt, stored).Finishing?
  {
    hide ReconcilePayment;
  }

  lemma LiveHash(view: Row)
    requires Live(view)
    ensures view.txHash == Some(KeccakOf(view.signedRawTransaction.value))
  {
  }

  lemma NothingLeaves(b: Busy)
    requires !b.phase.Broadcasting? && !b.phase.AwaitingSignature?
    ensures Leaves(b, Sent(b.phase), Asked(b.phase))
  {
  }

  /** What a crash may have let out is still what the row holds. */
  lemma CrashLeaves(links: Links, w: World, worker: WorkerId)
    requires worker in w.workers && Fenced(links, w, worker)
    ensures Leaves(w.workers[worker], Sent(w.workers[worker].phase), Asked(w.workers[worker].phase))
  {
    hide Later, GoodRow, PaysRow, Resolves, IntentOf, Live;
  }

  lemma ThoughtMoves(links: Links, w: World, worker: WorkerId, answer: Answer)
    requires Acting(links, w, worker, answer) && !answer.Crashed? && LocksExclusive(w)
    requires var p := w.workers[worker].phase;
             !Writes(p) && (p.Preparing? ==> LockFree(w, worker, Lower(p.deps.signer)))
    ensures var b := w.workers[worker];
            MovesTo(links, w, worker, WithPhase(b.view, Think(w.tables, links, worker, b.phase, answer)))
            && Leaves(b, Sent(b.phase), Asked(b.phase))
  {
    var b := w.workers[worker];
    hide Acting, MovesTo, Leaves, Think, LockFree, LocksExclusive, Answers;
    if b.phase.Resolving? || b.phase.Routing? || b.phase.Parsing? {
      EarlyThoughtMoves(links, w, worker, answer);
      NothingLeaves(b);
    } else if b.phase.Preparing? {
      PreparingThoughtMoves(links, w, worker, answer);
      NothingLeaves(b);
    } else if b.phase.ReadingPending? || b.phase.ReadingHighest? {
      LockedThoughtMoves(links, w, worker, answer);
      NothingLeaves(b);
    } else if b.phase.Broadcasting? {
      BroadcastThoughtMoves(links, w, worker, answer);
    } else if b.phase.Reconciling? {
      ReconcilingThoughtMoves(links, w, worker, answer);
      NothingLeaves(b);
    } else {
      SigningThoughtMoves(links, w, worker, answer);
    }
  }

  // -- Steps that write --------------------------------------------------------------------------

  /** A write under the lease is a move of that one row. */
  ghost predicate WritesRow(links: Links, w: World, worker: WorkerId, after: Tables, row: Row,
                            hashes: set<(RowId, TxHash)>)
    requires worker in w.workers
  {
    var b := w.workers[worker];
    && row.id == b.view.id && Rewrites(links, w, worker, b.view, row, hashes)
    && after == Tables(w.tables.rows[row.id := row], w.tables.transactions + hashes)
    && (AfterStatement(b.phase).Some? ==>
          !HoldsLock(AfterStatement(b.phase).value) && GoodPhase(links, w.chain, AfterStatement(b.phase).value, row))
    && (AfterError(b.phase).Some? ==> GoodPhase(links, w.chain, AfterError(b.phase).value, row))
  }

  ghost predicate Writing(links: Links, w: World, worker: WorkerId, after: Tables) {
    && worker in w.workers && Fenced(links, w, worker) && Writes(w.workers[worker].phase)
    && Owns(w.tables, w.workers[worker].view.id, worker)
       && w.tables.rows[w.workers[worker].view.id] == w.workers[worker].view
    && Statement(w.tables, worker, w.workers[worker].phase) == Some(after)
  }

  lemma ReserveWrites(links: Links, w: World, worker: WorkerId, after: Tables) returns (row: Row)
    requires Writing(links, w, worker, after) && w.workers[worker].phase.Reserving?
    ensures WritesRow(links, w, worker, after, row, {})
  {
    hide ParseUsdc, IntentHashFor, Lower;
    var Busy(phase, view) := w.workers[worker];
    row := after.rows[view.id];
    AmountsFit(phase.intent.amountUsdc);
    HashNamesTheRow(links, phase.job, phase.deps, phase.intent.recipient, ParseUsdc(phase.intent.amountUsdc).value);
    assert w.tables.transactions + {} == w.tables.transactions;
  }

  /** The hash a worker makes from its context names the row's own account. */
  lemma HashNamesTheRow(links: Links, job: Row, deps: Dependencies, recipient: string, amount: nat)
    requires Resolves(links, job, deps)
    ensures IntentHashFor(deps.context, job, recipient, amount) ==
            IntentHashOf(5_042_002, Lower(job.account), job.mandateId, Lower(job.requestId), Lower(recipient), amount)
  {
    hide Lower;
  }

  lemma AmountsFit(text: string)
    requires ParseUsdc(text).Ok?
    ensures 0 < ParseUsdc(text).value <= MAX_UINT256
  {
    hide HasUsdcShape, Millionths;
  }

  lemma RecordWrites(links: Links, w: World, worker: WorkerId, after: Tables) returns (row: Row)
    requires Writing(links, w, worker, after) && w.workers[worker].phase.Recording?
    ensures WritesRow(links, w, worker, after, row, {(row.id, KeccakOf(w.workers[worker].phase.raw))})
  {
    hide ParseUsdc, SameText, Resolves;
    var Busy(phase, view) := w.workers[worker];
    row := after.rows[view.id];
  }

  lemma MarkWrites(links: Links, w: World, worker: WorkerId, after: Tables) returns (row: Row)
    requires Writing(links, w, worker, after) && w.workers[worker].phase.MarkingBroadcast?
    ensures WritesRow(links, w, worker, after, row, {})
  {
    hide ParseUsdc, SameText, Resolves, StartReconcile, StoredIntent;
    var Busy(phase, view) := w.workers[worker];
    row := after.rows[view.id];
    assert Live(row);
    StartedReconcileIsGood(links, w.chain, phase.job, phase.deps, KeccakOf(phase.raw), None, phase.provided, row);
    assert w.tables.transactions + {} == w.tables.transactions;
  }

  lemma MarkErrorWrites(links: Links, w: World, worker: WorkerId, after: Tables) returns (row: Row)
    requires Writing(links, w, worker, after) && w.workers[worker].phase.MarkingError?
    ensures WritesRow(links, w, worker, after, row, {})
  {
    hide ParseUsdc, SameText;
    var view := w.workers[worker].view;
    row := after.rows[view.id];
    assert w.tables.transactions + {} == w.tables.transactions;
  }

  lemma FinishedRowIsGood(links: Links, chain: Chain, view: Row, result: FinishResult, row: Row)
    requires GoodRow(links, chain, view) && GoodResult(links, chain, view, result) && view.leaseOwner.Some?
    requires row == view.(state := result.state, rule := result.rule, attemptedUnits := result.attemptedUnits,
                          headroomUnits := result.headroomUnits,
                          errorCode := Column(result.errorCode), leaseOwner := None, leaseUntil := None)
    ensures GoodRow(links, chain, row) && Later(view, row) && !InFlight(row.state)
  {
    BuildCodesAreKept(result.errorCode);
    hide Column, Proves, SameText, IsBuildCode;
  }

  /** The codes of the building checks are short, so what the column keeps is one only if it was one. */
  lemma BuildCodesAreKept(errorCode: Option<string>)
    ensures IsBuildCode(Column(errorCode)) <==> IsBuildCode(errorCode)
  {
    assert |MANDATE_NOT_ACTIVE| == 18 && |MANDATE_AGENT_MISMATCH| == |AGENT_GAS_INSUFFICIENT| == 22
           && |SIGNER_ENVELOPE_REJECTED| == 24;
    if errorCode.Some? && |errorCode.value| <= 100 {
      assert errorCode.value[..|errorCode.value|] == errorCode.value;
    }
  }

  lemma FinishWrites(links: Links, w: World, worker: WorkerId, after: Tables) returns (row: Row)
    requires Writing(links, w, worker, after) && w.workers[worker].phase.Finishing?
    ensures WritesRow(links, w, worker, after, row, {})
  {
    hide Shown, GoodRow, GoodResult, PaysRow, Later;
    var Busy(phase, view) := w.workers[worker];
    row := after.rows[view.id];
    FinishedRowIsGood(links, w.chain, view, phase.result, row);
    assert w.tables.transactions + {} == w.tables.transactions;
  }

  lemma WriteKeepsInv(links: Links, w: World, worker: WorkerId, answer: Answer, after: Tables)
    requires Inv(links, w) && Acting(links, w, worker, answer) && !answer.Crashed? && !answer.Rejected?
             && Writing(links, w, worker, after)
    ensures var effect := Advance(w.tables, links, worker, w.workers[worker], answer);
            Inv(links, w.(tables := effect.tables, workers := SetWorker(w.workers, worker, effect.next)))
            && RowsAdvance(w.tables.rows, effect.tables.rows)
  {
    hide Inv, RowsAdvance, Fenced, GoodPhase, Rewrites, Statement, AfterStatement, AfterError;
    var b := w.workers[worker];
    var row: Row, hashes: set<(RowId, TxHash)> := b.view, {};
    match b.phase {
      case Reserving(_, _, _, _, _) => row := ReserveWrites(links, w, worker, after);
      case Recording(_, _, _, raw) => row := RecordWrites(links, w, worker, after); hashes := {(row.id, KeccakOf(raw))};
      case MarkingBroadcast(_, _, _, _) => row := MarkWrites(links, w, worker, after);
      case MarkingError(_) => row := MarkErrorWrites(links, w, worker, after);
      case Finishing(_, _, _) => row := FinishWrites(links, w, worker, after);
    }
    var effect := Advance(w.tables, links, worker, b, answer);
    var w' := w.(tables := effect.tables, workers := SetWorker(w.workers, worker, effect.next));
    assert AfterError(b.phase).Some? ==> !HoldsLock(AfterError(b.phase).value) by { RetryHoldsNoLock(b.phase); }
    assert RowMove(links, w, worker, row, effect.next, hashes, w');
    RowMoveKeepsInv(links, w, worker, row, effect.next, hashes, w');
    RowMoveAdvances(links, w, worker, row, effect.next, hashes, w');
  }

  lemma RetryHoldsNoLock(phase: Phase)
    ensures AfterError(phase).Some? ==> AfterError(phase).value.Finishing?
  {
  }

  /** A write whose guard fails moves the worker only. */
  lemma LostWriteMoves(links: Links, w: World, worker: WorkerId)
    requires worker in w.workers && Fenced(links, w, worker) && Writes(w.workers[worker].phase)
    ensures var b := w.workers[worker];
            && MovesTo(links, w, worker, WithPhase(b.view, AfterError(b.phase)))
            && (b.phase.MarkingError? ==> MovesTo(links, w, worker, WithPhase(b.view, AfterStatement(b.phase))))
  {
    hide Later, GoodRow, Shown, PaysRow, Resolves, IntentOf, HasBytes, StartReconcile;
  }

  /** Only the error note writes without the lease, and then it writes nothing. */
  lemma LostStatement(t: Tables, worker: WorkerId, phase: Phase)
    requires Writes(phase) && !Owns(t, phase.job.id, worker)
    ensures Statement(t, worker, phase) == if phase.MarkingError? then Some(t) else None
  {
  }
}
