/**
 * Exactly which blocked rows were sent. The documents read `signer_blocked` as denied before submission;
 * whether that is so depends on the state in which the row was claimed by the worker whose resolver failed.
 */
module ProtocolBlocked {
  import opened Prelude
  import opened Payments
  import opened Instruction
  import opened Envelope
  import opened Journal
  import opened Worker
  import opened Protocol
  import opened ProtocolInvariant
  import opened ProtocolSent
  import opened ProtocolWitness

  // -- Blocking a row ----------------------------------------------------------------------------

  /** An idle world with one row, which anyone may claim. */
  predicate IsIdle(w: World, row: Row) {
    w.workers == map[] && w.tables.rows == map[1 := row] && row.id == 1 && Claimable(row, LINKS, None, w.now)
  }

  /** A run that blocks a row claimed in this state, and what had been sent by then and at its end. */
  ghost predicate Blocks(run: seq<World>, events: seq<Event>, i: nat, claimed: State, sent: set<(RowId, RawTx)>) {
    && IsRun(LINKS, None, run, events) && ResolverBlocks(run, events, i, "w", 1, claimed) && i + 1 < |run|
    && run[i].sent == sent && run[i + 1].sent == sent
  }

  function Working(w: World, row: Row, phase: Phase): World {
    w.(tables := w.tables.(rows := map[1 := row]), workers := map["w" := Busy(phase, row)])
  }

  function Blocking(row: Row): Phase {
    Finishing(row, Plain(SignerBlocked, ResolverErrorCode("")), None)
  }

  /** Its worker claims it, its resolver fails. */
  lemma ResolverFails(w: World, row: Row) returns (leased: Row)
    requires Reachable(w) && IsIdle(w, row)
    ensures leased == Leased(row, "w", w.now) && Reachable(Working(w, leased, Blocking(leased)))
  {
    leased := Leased(row, "w", w.now);
    hide Reachable, ResolverErrorCode, Claimable;
    var claimed, failed := Working(w, leased, Resolving(leased)), Working(w, leased, Blocking(leased));
    OnlyCandidate(w.tables.rows, row, w.now);
    hide IsNext;
    Extend(w, Claims("w", 1, {}), claimed);
    Extend(claimed, Acts("w", ResolverFailed("")), failed);
  }

  lemma FinishIsBlocked(w: World, leased: Row) returns (blocked: World)
    requires leased.id == 1 && leased.leaseOwner == Some("w")
    ensures var before, e := Working(w, leased, Blocking(leased)), Acts("w", Committed);
            && Enabled(LINKS, None, before, e) && Apply(LINKS, None, before, e) == blocked
            && blocked.sent == w.sent && 1 in blocked.tables.rows && blocked.tables.rows[1].state == SignerBlocked
            && blocked.tables.rows[1].signedRawTransaction == leased.signedRawTransaction
  {
    ResolverCodesFit("");
    hide ResolverErrorCode;
    blocked := Apply(LINKS, None, Working(w, leased, Blocking(leased)), Acts("w", Committed));
  }

  lemma CanBlock(w: World, row: Row) returns (run: seq<World>, events: seq<Event>, i: nat)
    requires Reachable(w) && IsIdle(w, row) && row.state != SignerBlocked
    ensures Blocks(run, events, i, row.state, w.sent)
    ensures 1 in run[i + 1].tables.rows && run[i + 1].tables.rows[1].signedRawTransaction == row.signedRawTransaction
  {
    var leased := ResolverFails(w, row);
    var before, e := Working(w, leased, Blocking(leased)), Acts("w", Committed);
    var blocked := FinishIsBlocked(w, leased);
    run, events := RunTo(before);
    i := |events|;
    assert run[i] == before;
    run, events := RunOn(run, events, e, blocked);
    BlockingCode();
    hide Reachable, IsRun, Enabled, Apply, Claimable, ResolverErrorCode, IsResolverBlock;
  }

  lemma ResolverCodesFit(detail: string)
    ensures FitsColumn(Some(ResolverErrorCode(detail)))
  {
    hide Contains;
  }

  lemma BlockingCode()
    ensures IsResolverBlock(Plain(SignerBlocked, ResolverErrorCode("")))
  {
    ResolverCodesAreNotBuildCodes("");
    hide ResolverErrorCode;
  }

  // -- One idle world for each state a row can be claimed in -------------------------------------

  /** Its worker stops wherever it is, and its lease runs out. */
  lemma CrashAndWait(w: World, b: Busy) returns (idle: World)
    requires Reachable(w) && w.workers == map["w" := b]
    ensures Reachable(idle) && idle.workers == map[] && idle.tables == w.tables && idle.now == w.now + 31
    ensures idle.sent == w.sent + Tagged(b.phase.job.id, Sent(b.phase))
  {
    hide Reachable, Sent, Asked, Tagged;
    assert Enabled(LINKS, None, w, Acts("w", Crashed));
    var stopped := Apply(LINKS, None, w, Acts("w", Crashed));
    assert stopped.workers == map[];
    Extend(w, Acts("w", Crashed), stopped);
    idle := stopped.(now := stopped.now + 31);
    Extend(stopped, TimePasses(31), idle);
  }

  /** Its statement commits without it being told, and its lease runs out. */
  lemma UnacknowledgedAndWait(w: World, b: Busy, after: Tables) returns (idle: World)
    requires Reachable(w) && w.workers == map["w" := b]
    requires Writes(b.phase) && AfterError(b.phase).None? && Statement(w.tables, "w", b.phase) == Some(after)
    ensures Reachable(idle) && idle.workers == map[] && idle.tables == after && idle.now == w.now + 31
            && idle.sent == w.sent
  {
    hide Reachable, Statement, AfterError, AfterStatement;
    assert Enabled(LINKS, None, w, Acts("w", Unacknowledged));
    var stopped := Apply(LINKS, None, w, Acts("w", Unacknowledged));
    assert stopped.workers == map[] && stopped.sent == w.sent;
    Extend(w, Acts("w", Unacknowledged), stopped);
    idle := stopped.(now := stopped.now + 31);
    Extend(stopped, TimePasses(31), idle);
  }

  lemma IdleQueued() returns (w: World, row: Row)
    ensures Reachable(w) && IsIdle(w, row) && row.state == Queued && w.sent == {}
  {
    row := Queues();
    hide Reachable, Printed;
    w := Waiting(row);
  }

  lemma IdlePrepared() returns (w: World, row: Row)
    ensures Reachable(w) && IsIdle(w, row) && row.state == SigningPrepared && w.sent == {}
  {
    var leased := ReadyToBuild();
    hide Reachable, Printed, IntentHashFor;
    row := PreparedFrom(leased);
    w := CrashAndWait(At(row, Building(leased, DEPS, INTENT, 7), {}), Busy(Building(leased, DEPS, INTENT, 7), row));
  }

  /** Recorded, and stopped before the broadcast. */
  lemma IdleSignedUnsent() returns (w: World, row: Row)
    ensures Reachable(w) && IsIdle(w, row) && row.state == Signed && w.sent == {}
  {
    var leased := ReadyToRecord();
    hide Reachable, Printed, IntentHashFor, Assemble;
    row := SignedFrom(leased);
    var before, phase := At(PreparedFrom(leased), Recording(leased, DEPS, INTENT, RAW), {(1, TX)}),
        Recording(leased, DEPS, INTENT, RAW);
    w := UnacknowledgedAndWait(before, Busy(phase, PreparedFrom(leased)), Statement(before.tables, "w", phase).value);
  }

  /** Stopped in the broadcast: its bytes may be out. */
  lemma IdleSignedSent() returns (w: World, row: Row)
    ensures Reachable(w) && IsIdle(w, row) && row.state == Signed && row.signedRawTransaction == Some(RAW)
            && w.sent == {(1, RAW)}
  {
    var leased := ReadyToBroadcast();
    hide Reachable, Printed, IntentHashFor, Assemble;
    row := SignedFrom(leased);
    var phase := Broadcasting(leased, DEPS, RAW, Some(INTENT));
    w := CrashAndWait(At(row, phase, {(1, TX)}), Busy(phase, row));
  }

  lemma IdleSubmitted() returns (w: World, row: Row)
    ensures Reachable(w) && IsIdle(w, row) && row.state == Submitted && w.sent == {(1, RAW)}
  {
    var leased := ReadyToBroadcast();
    var signed, accepted := BroadcastIsAccepted(leased);
    hide Reachable, Assemble, SignedFrom;
    row := signed.(state := Submitted, lastBroadcastError := None);
    w := UnacknowledgedAndWait(Out(signed, 0, map["w" := accepted]), accepted,
                               Statement(Out(signed, 0, map[]).tables, "w", accepted.phase).value);
  }

  lemma BroadcastIsAccepted(leased: Row) returns (signed: Row, accepted: Busy)
    requires IsFreshlyLeased(leased) && Reachable(At(SignedFrom(leased), Broadcasting(leased, DEPS, RAW, Some(INTENT)),
                                                     {(1, TX)}))
    ensures accepted == Busy(MarkingBroadcast(leased, DEPS, RAW, Some(INTENT)), signed) && leased.id == 1
    ensures HoldsBytes(signed) && signed.state == Signed && signed.leaseOwner == Some("w")
            && signed.leaseUntil == Some(30)
    ensures Reachable(Out(signed, 0, map["w" := accepted]))
  {
    hide Reachable, Printed, Assemble, IntentHashFor;
    signed := SignedFrom(leased);
    assert HoldsBytes(signed) && signed.state == Signed && signed.leaseOwner == Some("w")
           && signed.leaseUntil == Some(30);
    hide SignedFrom;
    accepted := Busy(MarkingBroadcast(leased, DEPS, RAW, Some(INTENT)), signed);
    var w, e := At(signed, Broadcasting(leased, DEPS, RAW, Some(INTENT)), {(1, TX)}), Acts("w", BroadcastAccepted);
    assert Enabled(LINKS, None, w, e);
    assert Apply(LINKS, None, w, e) == Out(signed, 0, map["w" := accepted]);
    Extend(w, e, Out(signed, 0, map["w" := accepted]));
  }

  lemma IdleUnknown() returns (w: World, row: Row)
    ensures Reachable(w) && IsIdle(w, row) && row.state == Unknown && w.sent == {(1, RAW)}
  {
    var leased := ReadyToBroadcast();
    row := AmbiguousBroadcast(leased);
    hide Reachable, Assemble, IsFreshlyLeased;
    w := Out(row, 0, map[]);
  }

  // -- Main results ------------------------------------------------------------------------------

  lemma SentSomewhere(run: seq<World>, events: seq<Event>, i: nat, claimed: State)
    requires Blocks(run, events, i, claimed, {(1, RAW)})
    ensures !NeverSentFrom(claimed)
  {
    hide IsRun, ResolverBlocks;
    assert (1, RAW) in run[i].sent;
  }

  lemma UnsentSomewhere(run: seq<World>, events: seq<Event>, i: nat, claimed: State)
    requires Blocks(run, events, i, claimed, {})
    ensures !AlwaysSentFrom(claimed)
  {
    hide IsRun, ResolverBlocks;
    assert !WasSent(run[i], 1);
  }

  /**
   * A row blocked because a resolver failed was never sent, in any run, exactly when it was claimed
   * queued or prepared; it was sent, in any run, exactly when it was claimed submitted or unknown. A row
   * claimed signed is blocked both ways.
   */
  lemma WhenBlockedRowsWereSent(claimed: State)
    requires claimed in {Queued, SigningPrepared, Signed, Submitted, Unknown}
    ensures NeverSentFrom(claimed) <==> claimed in {Queued, SigningPrepared}
    ensures AlwaysSentFrom(claimed) <==> claimed in {Submitted, Unknown}
  {
    hide Blocks, NeverSentFrom, AlwaysSentFrom, Reachable, IsIdle, TX;
    match claimed {
      case Queued =>
        BlockedBeforeSigning(claimed);
        var w, row := IdleQueued();
        var run, events, i := CanBlock(w, row);
        UnsentSomewhere(run, events, i, claimed);
      case SigningPrepared =>
        BlockedBeforeSigning(claimed);
        var w, row := IdlePrepared();
        var run, events, i := CanBlock(w, row);
        UnsentSomewhere(run, events, i, claimed);
      case Signed =>
        var w, row := IdleSignedUnsent();
        var run, events, i := CanBlock(w, row);
        UnsentSomewhere(run, events, i, claimed);
        w, row := IdleSignedSent();
        run, events, i := CanBlock(w, row);
        SentSomewhere(run, events, i, claimed);
      case Submitted =>
        BlockedAfterSending(claimed);
        var w, row := IdleSubmitted();
        var run, events, i := CanBlock(w, row);
        SentSomewhere(run, events, i, claimed);
      case Unknown =>
        BlockedAfterSending(claimed);
        var w, row := IdleUnknown();
        var run, events, i := CanBlock(w, row);
        SentSomewhere(run, events, i, claimed);
    }
  }

  /** One such run: a row whose signed bytes were sent, and which ends `signer_blocked`. */
  lemma BlockedRowMayHaveBeenSent() returns (run: seq<World>, events: seq<Event>, i: nat)
    ensures IsRun(LINKS, None, run, events) && i + 1 < |run| && 1 in run[i + 1].tables.rows
    ensures run[i + 1].tables.rows[1].state == SignerBlocked
            && run[i + 1].tables.rows[1].signedRawTransaction == Some(RAW)
    ensures (1, RAW) in run[i].sent
  {
    var w, row := IdleSignedSent();
    run, events, i := CanBlock(w, row);
    hide IsRun, Reachable;
  }
}
