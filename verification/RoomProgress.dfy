/**
 * When a room can settle another batch, and when it never will again: batches
 * the chain holds that no attempt records, and batches that cannot be signed.
 */
module RoomProgress {
  import opened Wrappers
  import opened RoomModel
  import opened Replay
  import opened FixtureSigning
  import opened RoomRuns
  import opened RoomGuarantees
  import Hex = HexText
  import State = CheckpointState

  // ----- Batches no attempt owns

  function Owned(w: World): nat {
    if w.attempt.Some? && w.attempt.value.stage.Landed? then 1 else 0
  }

  /** Batches settled, or on the chain and still to be recorded by the attempt that sent them. */
  function Settled(w: World): nat {
    |w.sent| + Owned(w)
  }

  function Drops(steps: seq<Step>): nat {
    if steps == [] then 0
    else Drops(steps[..|steps| - 1]) + (if steps[|steps| - 1].Drop? then 1 else 0)
  }

  predicate Accounted(w: World) {
    && Gap(w) >= 0 && |w.sent| <= w.finalized <= w.chain.batchIndex
    && (w.attempt.Some? && w.attempt.value.stage != Queued ==> w.attempt.value.stage.request.batchIndex == |w.sent| + 1)
  }

  lemma InvIsAccounted(w: World)
    requires Inv(w)
    ensures Accounted(w)
  {
  }

  lemma PrepareSettlesNothing(w: World, prover: Option<PreparedJournal>, failAt: int)
    requires w.attempt.Some? && w.attempt.value.stage == Queued && w.attempt.value.index < |w.room.checkpoints|
    requires PrepareNext(w, prover, failAt).Some?
    ensures var after := PrepareNext(w, prover, failAt).value;
            && after.sent == w.sent && after.chain == w.chain && after.finalized == w.finalized
            && Owned(after) == 0 && Owned(w) == 0
  {
  }

  /** Only a reorganisation takes back a batch no attempt owns, one at a time, and until then nothing is settled. */
  lemma GapClosesOnlyByDrop(w: World, step: Step)
    requires Accounted(w) && Next(w, step).Some?
    ensures Gap(Next(w, step).value) >= Gap(w) - (if step.Drop? then 1 else 0)
    ensures Gap(w) > 0 ==> Settled(Next(w, step).value) <= Settled(w)
  {
    if step.Prepare? {
      PrepareSettlesNothing(w, step.prover, step.failAt);
    }
  }

  /**
   * After a crash or a failure behind an included batch, the room settles
   * nothing until L1 has dropped as many batches as no attempt owns.
   */
  lemma {:induction false} SettlingTakesDrops(w: World, steps: seq<Step>)
    requires Inv(w) && Run(w, steps).Some? && Drops(steps) < Gap(w)
    ensures Gap(Run(w, steps).value) >= Gap(w) - Drops(steps)
    ensures Settled(Run(w, steps).value) <= Settled(w)
  {
    if steps != [] {
      SettlingTakesDrops(w, steps[..|steps| - 1]);
      RunKeepsInv(w, steps[..|steps| - 1]);
      var before := Run(w, steps[..|steps| - 1]).value;
      InvIsAccounted(before);
      GapClosesOnlyByDrop(before, steps[|steps| - 1]);
    }
  }

  lemma FinalGapStays(w: World, step: Step)
    requires Accounted(w) && w.finalized > Settled(w) && Next(w, step).Some?
    ensures Next(w, step).value.finalized > Settled(Next(w, step).value)
    ensures Settled(Next(w, step).value) <= Settled(w)
  {
    if step.Prepare? {
      PrepareSettlesNothing(w, step.prover, step.failAt);
    }
  }

  /** Once such a batch is final the room never settles another, whatever is done next. */
  lemma {:induction false} LostAcceptanceIsPermanent(w: World, steps: seq<Step>)
    requires Inv(w) && w.finalized > Settled(w) && Run(w, steps).Some?
    ensures Run(w, steps).value.finalized > Settled(Run(w, steps).value)
    ensures Settled(Run(w, steps).value) <= Settled(w)
  {
    if steps != [] {
      LostAcceptanceIsPermanent(w, steps[..|steps| - 1]);
      RunKeepsInv(w, steps[..|steps| - 1]);
      var before := Run(w, steps[..|steps| - 1]).value;
      InvIsAccounted(before);
      FinalGapStays(before, steps[|steps| - 1]);
    }
  }

  // ----- Batches that cannot be signed

  /** No signer will complete this batch: some move has no fixture, or a shop batch is only partly signed. */
  predicate Blocked(mode: Mode, batch: seq<Action>) {
    match mode
    case BrowserSigned => false
    case FixtureSigned(options) => exists a :: a in batch && Unsignable(a, options)
    case ShopSigned(options) => Mixed(batch) || exists a :: a in batch && Unsignable(a, options)
  }

  /** An attempt's batch is refused by its signer exactly when it is blocked. */
  lemma SigningRefusesIff(mode: Mode, actions: seq<Action>, batch: seq<Action>)
    requires DistinctIds(actions) && Carry(actions, Ids(batch)) == batch && forall a :: a in batch ==> a in actions
    ensures SignCarried(mode, actions, Ids(batch)).failure.Some? <==> Blocked(mode, batch)
  {
    match mode
    case BrowserSigned =>
    case FixtureSigned(options) => SigningRefusedIff(actions, options, batch);
    case ShopSigned(options) =>
      MixedBatchIff(actions, batch, options);
      SigningRefusedIff(actions, options, batch);
      CountTells(batch);
  }

  lemma {:induction false} PendingMembers(actions: seq<Action>)
    ensures forall a :: a in Pending(actions) <==> a in actions && a.stamp.None?
  {
    if actions != [] {
      PendingMembers(actions[1..]);
      assert forall a :: a in actions <==> a == actions[0] || a in actions[1..];
    }
  }

  lemma BlockedGrows(mode: Mode, batch: seq<Action>, more: seq<Action>)
    requires Blocked(mode, batch) && forall a :: a in batch ==> a in more
    ensures Blocked(mode, more)
  {
  }

  /** What the next attempt will carry, or the queued one does, cannot be signed. */
  predicate Wedged(w: World) {
    || (w.attempt.None? && Blocked(w.mode, Pending(w.room.actions)))
    || (w.attempt.Some? && w.attempt.value.stage == Queued
        && Blocked(w.mode, Carry(w.room.actions, w.attempt.value.carried)))
  }

  /** Every stamp is one the log already had. */
  predicate NoNewStamps(before: seq<Action>, after: seq<Action>) {
    forall i :: 0 <= i < |after| && after[i].stamp.Some? ==> i < |before| && before[i].stamp == after[i].stamp
  }

  /** What a wedged room's attempt carries is pending. */
  lemma CarryIsPending(w: World)
    requires Inv(w) && w.attempt.Some?
    ensures forall a :: a in Carry(w.room.actions, w.attempt.value.carried) ==> a in Pending(w.room.actions)
    ensures var ids := w.attempt.value.carried;
            Ids(Carry(w.room.actions, ids)) == ids
  {
    CarriedSegment(w);
    PendingAfterPrefix(w.room);
    var k := |Carried(w.room.checkpoints)|;
    assert w.room.actions[k..][..|w.attempt.value.carried|] == Segment(w.room.actions, w.room.checkpoints, |w.attempt.value.carried|);
    AttemptCarriesSegment(w);
  }

  lemma PendingOnceAbandoned(w: World)
    requires Inv(w) && w.attempt.Some? && Blocked(w.mode, Carry(w.room.actions, w.attempt.value.carried))
    ensures Blocked(w.mode, Pending(w.room.actions))
  {
    CarryIsPending(w);
    BlockedGrows(w.mode, Carry(w.room.actions, w.attempt.value.carried), Pending(w.room.actions));
  }

  /** A move no fixture can sign is the same after any signing. */
  lemma UnsignableStays(mode: Mode, actions: seq<Action>, ids: seq<ActionId>, action: Action)
    requires DistinctIds(actions) && ModeOk(mode, actions) && !mode.BrowserSigned?
    requires action in Pending(actions) && Unsignable(action, mode.options)
    ensures action in Pending(SignCarried(mode, actions, ids).log)
  {
    var after := SignCarried(mode, actions, ids).log;
    PendingMembers(actions);
    PendingMembers(after);
    SignCarriedOnlySigns(mode, actions, ids);
    SignAllIsPointwise(actions, mode.options, if mode.FixtureSigned? then ids else Ids(Carry(actions, ids)));
    var i :| 0 <= i < |actions| && actions[i] == action;
    assert after[i] == action;
  }

  /** A refused signing leaves the batch as hopeless as it was. */
  lemma RefusalKeepsBlocked(mode: Mode, actions: seq<Action>, batch: seq<Action>)
    requires DistinctIds(actions) && ModeOk(mode, actions) && Blocked(mode, batch)
    requires Carry(actions, Ids(batch)) == batch && forall a :: a in batch ==> a in Pending(actions)
    ensures Blocked(mode, Pending(SignCarried(mode, actions, Ids(batch)).log))
  {
    if a :| a in batch && Unsignable(a, mode.options) {
      UnsignableStays(mode, actions, Ids(batch), a);
    } else {
      MixedBatchIff(actions, batch, mode.options);
      BlockedGrows(mode, batch, Pending(actions));
    }
  }

  lemma SigningStampsNothing(mode: Mode, actions: seq<Action>, ids: seq<ActionId>)
    requires DistinctIds(actions) && ModeOk(mode, actions)
    ensures NoNewStamps(actions, SignCarried(mode, actions, ids).log)
  {
    SignCarriedOnlySigns(mode, actions, ids);
  }

  lemma WedgedAttempt(w: World)
    requires Inv(w) && w.attempt.Some? && Blocked(w.mode, Carry(w.room.actions, w.attempt.value.carried))
    ensures var batch := Carry(w.room.actions, w.attempt.value.carried);
            && DistinctIds(w.room.actions) && ModeOk(w.mode, w.room.actions)
            && w.attempt.value.carried == Ids(batch) && Carry(w.room.actions, Ids(batch)) == batch
            && (forall a :: a in batch ==> a in w.room.actions && a in Pending(w.room.actions))
  {
    CarryIsPending(w);
    PendingMembers(w.room.actions);
  }

  lemma PrepareKeepsWedged(w: World, prover: Option<PreparedJournal>, failAt: int)
    requires Inv(w) && w.attempt.Some? && Blocked(w.mode, Carry(w.room.actions, w.attempt.value.carried))
    requires w.attempt.value.index < |w.room.checkpoints|
    ensures PrepareNext(w, prover, failAt).Some?
    ensures var after := PrepareNext(w, prover, failAt).value;
            Wedged(after) && after.sent == w.sent && NoNewStamps(w.room.actions, after.room.actions)
  {
    var batch := Carry(w.room.actions, w.attempt.value.carried);
    WedgedAttempt(w);
    SigningRefusesIff(w.mode, w.room.actions, batch);
    RefusalKeepsBlocked(w.mode, w.room.actions, batch);
    SigningStampsNothing(w.mode, w.room.actions, Ids(batch));
  }

  lemma PendingIsCarried(room: Room)
    requires CursorInv(room)
    ensures Carry(room.actions, Ids(Pending(room.actions))) == Pending(room.actions)
  {
    var k := |Carried(room.checkpoints)|;
    PendingAfterPrefix(room);
    assert room.actions[k..|room.actions|] == Pending(room.actions);
    CarrySegment(room.actions, k, |room.actions| - k);
  }

  /** An attempt carries everything pending when it starts. */
  lemma StartCarriesPending(w: World, step: Step)
    requires step.Start? && Next(w, step).Some?
    ensures var after := Next(w, step).value;
            && w.attempt.None? && after.attempt.Some? && after.attempt.value.stage == Queued
            && after.attempt.value.carried == Ids(Pending(w.room.actions))
            && after.room.actions == w.room.actions && after.mode == w.mode
            && after.sent == w.sent && after.chain == w.chain && after.finalized == w.finalized
  {
  }

  lemma StartKeepsWedged(w: World, step: Step)
    requires Inv(w) && Wedged(w) && step.Start? && Next(w, step).Some?
    ensures Wedged(Next(w, step).value)
  {
    StartCarriesPending(w, step);
    PendingIsCarried(w.room);
  }

  lemma UnstampedStay(actions: seq<Action>, sequence: nat)
    ensures forall a :: a in Pending(actions) ==> a in Pending(State.Unstamped(actions, sequence))
    ensures NoNewStamps(actions, State.Unstamped(actions, sequence))
  {
    var after := State.Unstamped(actions, sequence);
    PendingMembers(actions);
    PendingMembers(after);
    forall a | a in Pending(actions)
      ensures a in after
    {
      var i :| 0 <= i < |actions| && actions[i] == a;
      assert after[i] == a;
    }
  }

  lemma {:induction false} FoundBefore(actions: seq<Action>, action: Action, ids: seq<ActionId>)
    requires action.id !in ids
    ensures Carry(actions + [action], ids) == Carry(actions, ids)
  {
    if ids != [] {
      FoundBefore(actions, action, ids[..|ids| - 1]);
      assert (actions + [action])[..|actions|] == actions;
      assert ids[|ids| - 1] in ids;
    }
  }

  /** A new move joins the pending ones and no attempt already started. */
  lemma AddedMove(w: World, step: Step)
    requires step.AddMove? && Next(w, step).Some?
    ensures var after := Next(w, step).value;
            && after.attempt == w.attempt && after.mode == w.mode && after.sent == w.sent
            && |after.room.actions| == |w.room.actions| + 1
            && var added := after.room.actions[|w.room.actions|];
            && after.room.actions == w.room.actions + [added] && added.stamp.None?
            && forall a :: a in w.room.actions ==> a.id != added.id
  {
  }

  lemma CarriedIsLogged(w: World)
    requires Inv(w) && w.attempt.Some?
    ensures forall id :: id in w.attempt.value.carried ==> exists a :: a in w.room.actions && a.id == id
  {
    AttemptCarriesSegment(w);
  }

  lemma AddKeepsWedged(w: World, step: Step)
    requires Inv(w) && Wedged(w) && step.AddMove? && Next(w, step).Some?
    ensures Wedged(Next(w, step).value)
    ensures NoNewStamps(w.room.actions, Next(w, step).value.room.actions)
  {
    var after := Next(w, step).value;
    AddedMove(w, step);
    if w.attempt.None? {
      PendingMembers(w.room.actions);
      PendingMembers(after.room.actions);
      BlockedGrows(w.mode, Pending(w.room.actions), Pending(after.room.actions));
    } else {
      CarriedIsLogged(w);
      FoundBefore(w.room.actions, after.room.actions[|w.room.actions|], w.attempt.value.carried);
    }
  }

  lemma NextKeepsWedged(w: World, step: Step)
    requires Inv(w) && Wedged(w) && Next(w, step).Some?
    ensures Wedged(Next(w, step).value)
    ensures |Next(w, step).value.sent| <= |w.sent|
    ensures NoNewStamps(w.room.actions, Next(w, step).value.room.actions)
  {
    match step
    case AddMove(_, _, _, _, _) => AddKeepsWedged(w, step);
    case Start(_, _, _, _) => StartKeepsWedged(w, step);
    case Prepare(prover, failAt) => PrepareKeepsWedged(w, prover, failAt);
    case Fail(_, _) => PendingOnceAbandoned(w);
    case Restart(at) =>
      State.RestoreKeepsCursor(w.room, at);
      if w.attempt.Some? {
        PendingOnceAbandoned(w);
      }
    case Retract(index, _, _) =>
      UnstampedStay(w.room.actions, w.room.checkpoints[index].sequence);
      BlockedGrows(w.mode, Pending(w.room.actions), Pending(Next(w, step).value.room.actions));
    case _ =>
  }

  /**
   * Once what a room would carry next cannot be signed, no later attempt gets
   * past its queue, nothing more is stamped and nothing more is settled,
   * whatever is added, retried, restarted or retracted.
   */
  lemma {:induction false} BlockedBatchWedges(w: World, steps: seq<Step>)
    requires Inv(w) && Wedged(w) && Run(w, steps).Some?
    ensures var after := Run(w, steps).value;
            && Wedged(after) && (after.attempt.Some? ==> after.attempt.value.stage == Queued)
            && |after.sent| <= |w.sent| && NoNewStamps(w.room.actions, after.room.actions)
  {
    if steps != [] {
      BlockedBatchWedges(w, steps[..|steps| - 1]);
      RunKeepsInv(w, steps[..|steps| - 1]);
      NextKeepsWedged(Run(w, steps[..|steps| - 1]).value, steps[|steps| - 1]);
    }
  }

  // ----- Exactly when a room can go on

  ghost predicate CanSettle(w: World) {
    exists steps :: Run(w, steps).Some? && |Run(w, steps).value.sent| > |w.sent|
  }

  lemma {:induction false} RunConcat(w: World, first: seq<Step>, second: seq<Step>)
    requires Run(w, first).Some?
    ensures Run(w, first + second) == Run(Run(w, first).value, second)
  {
    if second == [] {
      assert first + second == first;
    } else {
      RunConcat(w, first, second[..|second| - 1]);
      assert (first + second)[..|first + second| - 1] == first + second[..|second| - 1];
    }
  }

  /** L1 may drop whatever it has not finalized. */
  lemma {:induction false} DropAll(w: World) returns (steps: seq<Step>, after: World)
    requires Inv(w) && w.attempt.None?
    ensures Run(w, steps) == Some(after)
    ensures && Inv(after) && after.chain.batchIndex == w.finalized == after.finalized
            && after.room == w.room && after.mode == w.mode && after.attempt == w.attempt && after.sent == w.sent
    decreases w.chain.batchIndex - w.finalized
  {
    if w.chain.batchIndex == w.finalized {
      steps, after := [], w;
    } else {
      var drop := Drop(w.chain.stateRoot, w.chain.l2BlockHeight, w.chain.outboxEpoch);
      NextKeepsInv(w, drop);
      RunOne(w, drop);
      var rest, end := DropAll(Next(w, drop).value);
      RunConcat(w, [drop], rest);
      steps, after := [drop] + rest, end;
    }
  }

  lemma RunOne(w: World, step: Step)
    ensures Run(w, [step]) == Next(w, step)
  {
    assert Run(w, []) == Some(w);
    assert [step][..0] == [];
  }

  lemma RunPush(w: World, steps: seq<Step>, step: Step)
    requires Run(w, steps).Some?
    ensures Run(w, steps + [step]) == Next(Run(w, steps).value, step)
  {
    assert (steps + [step])[..|steps|] == steps;
  }

  lemma PendingIsLogged(room: Room)
    requires CursorInv(room)
    ensures DistinctIds(room.actions) && forall a :: a in Pending(room.actions) ==> a in room.actions
  {
    PendingMembers(room.actions);
  }

  lemma StartsNow(w: World) returns (started: World)
    requires Inv(w) && w.attempt.None? && State.AssertCheckpointable(w.room, true, 0).Ok?
    requires !Blocked(w.mode, Pending(w.room.actions))
    ensures Next(w, Start(true, 0, 0, 0)) == Some(started) && Inv(started)
    ensures started.attempt.Some? && started.attempt.value.stage == Queued
    ensures SignCarried(started.mode, started.room.actions, started.attempt.value.carried).failure.None?
    ensures started.sent == w.sent && started.chain == w.chain && started.finalized == w.finalized
  {
    var start := Start(true, 0, 0, 0);
    started := Next(w, start).value;
    StartCarriesPending(w, start);
    PendingIsCarried(w.room);
    PendingIsLogged(w.room);
    SigningRefusesIff(w.mode, w.room.actions, Pending(w.room.actions));
    NextKeepsInv(w, start);
  }

  lemma RunThen(w: World, first: seq<Step>, midway: World, second: seq<Step>, last: World)
    requires Run(w, first) == Some(midway) && Run(midway, second) == Some(last)
    ensures Run(w, first + second) == Some(last)
  {
    RunConcat(w, first, second);
  }

  lemma RunThenOne(w: World, first: seq<Step>, midway: World, step: Step, last: World)
    requires Run(w, first) == Some(midway) && Next(midway, step) == Some(last)
    ensures Run(w, first + [step]) == Some(last)
  {
    RunPush(w, first, step);
  }

  lemma RunTwo(w: World, first: Step, midway: World, second: Step, last: World)
    requires Next(w, first) == Some(midway) && Next(midway, second) == Some(last)
    ensures Run(w, [first, second]) == Some(last)
  {
    RunOne(w, first);
    RunOne(midway, second);
    RunThen(w, [first], midway, [second], last);
    assert [first] + [second] == [first, second];
  }

  /** A prover that opens the chain's next batch from the chain's root. */
  function Continuing(chain: OnChainRoom): Option<PreparedJournal> {
    Some(PreparedJournal(chain.batchIndex + 1, chain.stateRoot))
  }

  function Answered(chain: OnChainRoom): Step {
    Prepare(Continuing(chain), 0)
  }

  /** What preparing changes: the carried moves are signed and the request is posted. */
  predicate PreparedFrom(started: World, prepared: World) {
    && started.attempt.Some? && prepared.attempt.Some?
    && prepared.mode == started.mode
    && prepared.room == started.room.(actions := SignCarried(started.mode, started.room.actions, started.attempt.value.carried).log)
    && prepared.attempt == Some(started.attempt.value.(stage := prepared.attempt.value.stage))
  }

  lemma PrepareIsNext(w: World, prover: Option<PreparedJournal>, failAt: int)
    requires w.attempt.Some? && w.attempt.value.stage == Queued && w.attempt.value.index < |w.room.checkpoints|
    ensures Next(w, Prepare(prover, failAt)) == PrepareNext(w, prover, failAt)
  {
  }

  lemma PreparedNow(started: World) returns (prepared: World)
    requires Inv(started) && started.attempt.Some? && started.attempt.value.stage == Queued
    requires SignCarried(started.mode, started.room.actions, started.attempt.value.carried).failure.None?
    requires started.chain.batchIndex == |started.sent|
    ensures Next(started, Answered(started.chain)) == Some(prepared) && Inv(prepared)
    ensures prepared.attempt.Some? && prepared.attempt.value.stage.Prepared?
    ensures prepared.sent == started.sent && prepared.chain == started.chain && prepared.finalized == started.finalized
    ensures PreparedFrom(started, prepared)
  {
    PrepareAlwaysAnswers(started, Continuing(started.chain), 0);
    SignedRequest(started, Continuing(started.chain), 0);
    prepared := PrepareNext(started, Continuing(started.chain), 0).value;
    PrepareStep(started, Continuing(started.chain), 0);
    PrepareIsNext(started, Continuing(started.chain), 0);
  }

  lemma PreparesFrom(w: World) returns (started: World, prepared: World)
    requires Inv(w) && w.attempt.None? && State.AssertCheckpointable(w.room, true, 0).Ok?
    requires !Blocked(w.mode, Pending(w.room.actions)) && w.chain.batchIndex == |w.sent|
    ensures Next(w, Start(true, 0, 0, 0)) == Some(started) && PreparedFrom(started, prepared)
    ensures Run(w, [Start(true, 0, 0, 0), Answered(w.chain)]) == Some(prepared) && Inv(prepared)
    ensures prepared.attempt.Some? && prepared.attempt.value.stage.Prepared?
    ensures prepared.sent == w.sent && prepared.chain == w.chain && prepared.finalized == w.finalized
  {
    started := StartsNow(w);
    prepared := PreparedNow(started);
    RunTwo(w, Start(true, 0, 0, 0), started, Answered(w.chain), prepared);
  }

  /** An open room with a signable batch and nothing on the chain but its own batches can start and prepare it. */
  lemma PreparesNow(w: World) returns (steps: seq<Step>, prepared: World)
    requires Inv(w) && w.attempt.None? && State.AssertCheckpointable(w.room, true, 0).Ok?
    requires !Blocked(w.mode, Pending(w.room.actions)) && w.chain.batchIndex == |w.sent|
    ensures Run(w, steps) == Some(prepared) && Inv(prepared)
    ensures prepared.attempt.Some? && prepared.attempt.value.stage.Prepared?
    ensures prepared.sent == w.sent && prepared.chain == w.chain && prepared.finalized == w.finalized
  {
    var started, after := PreparesFrom(w);
    steps, prepared := [Start(true, 0, 0, 0), Answered(w.chain)], after;
  }

  /** Where signing succeeds, what is posted depends on the chain and the prover alone. */
  lemma SignedRequest(w: World, prover: Option<PreparedJournal>, failAt: int)
    requires Inv(w) && w.attempt.Some? && w.attempt.value.stage == Queued && w.attempt.value.index < |w.room.checkpoints|
    requires SignCarried(w.mode, w.room.actions, w.attempt.value.carried).failure.None?
    requires PrepareNext(w, prover, failAt).Some?
    ensures var after := PrepareNext(w, prover, failAt).value;
            && after.sent == w.sent && after.chain == w.chain && after.finalized == w.finalized
            && if w.chain.batchIndex == |w.sent| && PreparedMatches(prover, ContinuationFor(w.attempt.value.index + 1, w.chain)) then
                 after.attempt.Some? && after.attempt.value.stage.Prepared? && PreparedFrom(w, after)
               else
                 after.attempt.None? && after.room.checkpoints[w.attempt.value.index].outcome == FAILED
  {
    var attempt := w.attempt.value;
    var signing := SignCarried(w.mode, w.room.actions, attempt.carried);
    SignCarriedOnlySigns(w.mode, w.room.actions, attempt.carried);
    SigningStep(w, signing.log);
    var signed := w.(room := w.room.(actions := signing.log));
    var carried := Carry(signing.log, attempt.carried);
    RequestIsHistoryPlusBatch(signed.room, carried, attempt.index + 1, w.chain, w.sent);
  }

  /** The queued batch can be signed, the chain holds only the room's own batches, and the prover opens the next one. */
  predicate Posts(w: World, prover: Option<PreparedJournal>)
    requires w.attempt.Some?
  {
    && !Blocked(w.mode, Carry(w.room.actions, w.attempt.value.carried))
    && w.chain.batchIndex == |w.sent|
    && PreparedMatches(prover, ContinuationFor(w.attempt.value.index + 1, w.chain))
  }

  predicate HasPosted(w: World) {
    w.attempt.Some? && w.attempt.value.stage.Prepared?
  }

  /** A queued attempt posts its request exactly under those three conditions, and is recorded as failed otherwise. */
  lemma AttemptPostsIff(w: World, prover: Option<PreparedJournal>, failAt: int)
    requires Inv(w) && w.attempt.Some? && w.attempt.value.stage == Queued
    ensures w.attempt.value.index < |w.room.checkpoints| && PrepareNext(w, prover, failAt).Some?
    ensures var after, index := PrepareNext(w, prover, failAt).value, w.attempt.value.index;
            && (HasPosted(after) <==> Posts(w, prover))
            && (!Posts(w, prover) ==>
                  after.attempt.None? && index < |after.room.checkpoints| && after.room.checkpoints[index].outcome == FAILED)
  {
    PrepareAlwaysAnswers(w, prover, failAt);
    QueuedBatchRefusedIff(w);
    if Blocked(w.mode, Carry(w.room.actions, w.attempt.value.carried)) {
      RefusedAttemptFails(w, prover, failAt);
    } else {
      SignedRequest(w, prover, failAt);
    }
  }

  /** A prover that rebuilt an earlier batch, or opened from another root, never gets an attempt past its queue. */
  lemma StaleProverIsRefused(w: World, prover: Option<PreparedJournal>, failAt: int)
    requires Inv(w) && w.attempt.Some? && w.attempt.value.stage == Queued && |w.sent| > 0
    ensures w.attempt.value.index < |w.room.checkpoints| && PrepareNext(w, prover, failAt).Some?
    ensures HasPosted(PrepareNext(w, prover, failAt).value) ==>
              && prover.Some? && prover.value.batchIndex == |w.sent| + 1
              && Hex.Lower(prover.value.preStateRoot) == Hex.Lower(w.chain.stateRoot)
  {
    AttemptPostsIff(w, prover, failAt);
  }

  lemma QueuedBatchRefusedIff(w: World)
    requires Inv(w) && w.attempt.Some?
    ensures SignCarried(w.mode, w.room.actions, w.attempt.value.carried).failure.Some?
            <==> Blocked(w.mode, Carry(w.room.actions, w.attempt.value.carried))
  {
    CarryIsPending(w);
    PendingIsLogged(w.room);
    SigningRefusesIff(w.mode, w.room.actions, Carry(w.room.actions, w.attempt.value.carried));
  }

  lemma RefusedAttemptFails(w: World, prover: Option<PreparedJournal>, failAt: int)
    requires w.attempt.Some? && w.attempt.value.index < |w.room.checkpoints|
    requires SignCarried(w.mode, w.room.actions, w.attempt.value.carried).failure.Some?
    ensures PrepareNext(w, prover, failAt).Some?
    ensures var after, index := PrepareNext(w, prover, failAt).value, w.attempt.value.index;
            after.attempt.None? && index < |after.room.checkpoints| && after.room.checkpoints[index].outcome == FAILED
  {
  }

  const SOME_RESULT := CheckpointResult(1, "", "", "", "", "", "", None)

  lemma LandsNow(w: World) returns (steps: seq<Step>, settled: World)
    requires Accounted(w) && w.attempt.Some? && w.attempt.value.stage.Prepared? && w.chain.batchIndex == |w.sent|
    requires w.attempt.value.index < |w.room.checkpoints|
    ensures Run(w, steps) == Some(settled) && |settled.sent| == |w.sent| + 1
    ensures settled.room == State.Completed(w.room, w.attempt.value.index, SOME_RESULT, 0).(phase := L1_FINALIZED)
    ensures settled.attempt.None? && settled.mode == w.mode && settled.chain.batchIndex == |settled.sent|
  {
    var land, finalize := Land("", 0, 0), Finalize(|w.sent| + 1);
    var complete := Complete(SOME_RESULT, 0);
    var landed := Next(w, land).value;
    var final := Next(landed, finalize).value;
    settled := Next(final, complete).value;
    RunTwo(w, land, landed, finalize, final);
    RunOne(final, complete);
    RunThen(w, [land, finalize], final, [complete], settled);
    steps := [land, finalize] + [complete];
  }

  /** Any posted batch can be included and made final while its attempt fails. */
  lemma AcceptanceCanBeLost(w: World) returns (steps: seq<Step>, after: World)
    requires Accounted(w) && w.attempt.Some? && w.attempt.value.stage.Prepared? && w.chain.batchIndex == |w.sent|
    requires w.attempt.value.index < |w.room.checkpoints|
    ensures Run(w, steps) == Some(after)
    ensures after.attempt.None? && Gap(after) == 1 && after.finalized > Settled(after)
  {
    var land, finalize, fail := Land("", 0, 0), Finalize(|w.sent| + 1), Fail("", 0);
    var landed := Next(w, land).value;
    var final := Next(landed, finalize).value;
    after := Next(final, fail).value;
    RunTwo(w, land, landed, finalize, final);
    RunOne(final, fail);
    RunThen(w, [land, finalize], final, [fail], after);
    steps := [land, finalize] + [fail];
  }

  /**
   * A room that could be checkpointed now can settle another batch if and only
   * if no batch it does not own is final and its pending moves can be signed.
   */
  lemma SettlesAgainIff(w: World)
    requires Inv(w) && w.attempt.None? && State.AssertCheckpointable(w.room, true, 0).Ok?
    ensures CanSettle(w) <==> w.finalized <= |w.sent| && !Blocked(w.mode, Pending(w.room.actions))
  {
    if w.finalized <= |w.sent| && !Blocked(w.mode, Pending(w.room.actions)) {
      SettlesAgain(w);
    }
    if CanSettle(w) {
      var steps :| Run(w, steps).Some? && |Run(w, steps).value.sent| > |w.sent|;
      if w.finalized > |w.sent| {
        LostAcceptanceIsPermanent(w, steps);
      }
      if Blocked(w.mode, Pending(w.room.actions)) {
        BlockedBatchWedges(w, steps);
      }
    }
  }

  lemma PostedCanSettle(w: World) returns (steps: seq<Step>, settled: World)
    requires Inv(w) && HasPosted(w) && w.chain.batchIndex == |w.sent|
    ensures Run(w, steps) == Some(settled) && |settled.sent| == |w.sent| + 1
  {
    InvIsAccounted(w);
    AttemptIsLast(w);
    steps, settled := LandsNow(w);
  }

  lemma SettlesAgain(w: World)
    requires Inv(w) && w.attempt.None? && State.AssertCheckpointable(w.room, true, 0).Ok?
    requires w.finalized <= |w.sent| && !Blocked(w.mode, Pending(w.room.actions))
    ensures CanSettle(w)
  {
    var drops, clear := DropAll(w);
    var prepare, prepared := PreparesNow(clear);
    var land, settled := PostedCanSettle(prepared);
    RunThen(w, drops, clear, prepare, prepared);
    RunThen(w, drops + prepare, prepared, land, settled);
  }
}
