/**
 * Whole runs of one room against its chain: moves arriving, attempts starting,
 * failing and landing, L1 reorganisations and finality, restarts at any point,
 * and acceptances lost in between.
 */
module RoomRuns {
  import opened Wrappers
  import opened RoomModel
  import opened Replay
  import opened FixtureSigning
  import State = CheckpointState
  import Policy = CheckpointPolicy

  /** Who signs this room's moves. */
  datatype Mode = BrowserSigned | FixtureSigned(options: SigningOptions) | ShopSigned(options: SigningOptions)

  datatype Stage = Queued | Prepared(request: BatchRequest) | Landed(request: BatchRequest)

  /** The attempt a worker is driving, forgotten when the process restarts. */
  datatype Attempt = Attempt(index: nat, carried: seq<ActionId>, openPhase: Phase, stage: Stage)

  /**
   * `chain` is what L1 answers at its latest block and `finalized` how many of
   * its batches L1 can no longer drop. `sent` remembers, for each accepted
   * attempt, the blocks its request carried; `afloat` the batch numbers of
   * requests whose attempt is gone but whose transaction may still be included.
   */
  datatype World = World(
    mode: Mode,
    room: Room,
    attempt: Option<Attempt>,
    chain: OnChainRoom,
    finalized: nat,
    sent: seq<seq<seq<Envelope>>>,
    afloat: seq<nat>)

  datatype Step =
    | Deploy(chainRoomId: nat)
    | AddMove(id: ActionId, selectors: seq<string>, preset: Option<State.PresetAction>, input: State.MoveRequest, at: int)
    | Start(force: bool, planAt: int, triggerAt: int, at: int)
    | Prepare(prover: Option<PreparedJournal>, failAt: int)
    | Advance(phase: Phase)
    | Land(stateRoot: string, l2BlockHeight: nat, outboxEpoch: nat)
    | OrphanLands(which: nat)
    | Drop(stateRoot: string, l2BlockHeight: nat, outboxEpoch: nat)
    | Finalize(batches: nat)
    | Complete(result: CheckpointResult, at: int)
    | Fail(reason: string, at: int)
    | Close(at: int)
    | Restart(at: int)
    | Retract(index: nat, reason: string, at: int)

  function Initial(mode: Mode, createdAt: int, deadline: Option<nat>, chain: OnChainRoom): World
    requires chain.batchIndex == 0
  {
    World(mode, Room(ROOM_READY, createdAt, createdAt, None, [], None, [], deadline, None), None, chain, 0, [], [])
  }

  /** The moves an attempt's ids name in the log. */
  function Carry(actions: seq<Action>, ids: seq<ActionId>): seq<Action> {
    if ids == [] then []
    else
      var action := Find(actions, ids[|ids| - 1]);
      Carry(actions, ids[..|ids| - 1]) + (if action.Some? then [action.value] else [])
  }

  function SignCarried(mode: Mode, actions: seq<Action>, ids: seq<ActionId>): (r: Signing)
    ensures |r.log| == |actions|
  {
    match mode
    case BrowserSigned => Signing(actions, None)
    case FixtureSigned(options) => SignAll(actions, options, ids)
    case ShopSigned(options) =>
      var r := SignShopBatch(actions, Carry(actions, ids), options);
      Signing(r.log, r.failure)
  }

  /** Record the failure, forget the attempt, and put the room back in the phase it was opened from. */
  function Abandon(w: World, actions: seq<Action>, reason: string, at: int): World
    requires w.attempt.Some? && w.attempt.value.index < |w.room.checkpoints|
  {
    var attempt := w.attempt.value;
    var failed := State.Failed(w.room.(actions := actions), attempt.index, reason, at);
    w.(room := failed.(phase := attempt.openPhase), attempt := None, afloat := w.afloat + Unresolved(attempt))
  }

  function Unresolved(attempt: Attempt): seq<nat> {
    if attempt.stage.Queued? then [] else [attempt.stage.request.batchIndex]
  }

  /** Sign, rebuild the request, post it, and hold the prover to the batch and root it was given. */
  function PrepareNext(w: World, prover: Option<PreparedJournal>, failAt: int): Option<World>
    requires w.attempt.Some? && w.attempt.value.index < |w.room.checkpoints|
  {
    var attempt := w.attempt.value;
    var signing := SignCarried(w.mode, w.room.actions, attempt.carried);
    if signing.failure.Some? then Some(Abandon(w, signing.log, "signing refused", failAt))
    else
      var room := w.room.(actions := signing.log);
      var carried := Carry(signing.log, attempt.carried);
      if carried == [] || !AllSigned(carried) then None
      else
        var request := BatchRequestOf(room, carried, attempt.index + 1, w.chain);
        if request.Err? then Some(Abandon(w, signing.log, "history cannot be replayed", failAt))
        else if !PreparedMatches(prover, ContinuationFor(attempt.index + 1, w.chain)) then
          Some(Abandon(w, signing.log, "prover did not continue the room", failAt))
        else Some(w.(room := room, attempt := Some(attempt.(stage := Prepared(request.value)))))
  }

  /** An L1 reorganisation took the newest batch: if it was the attempt's own, its transaction is pending again. */
  function Unlanded(attempt: Option<Attempt>, batchIndex: nat): Option<Attempt> {
    if attempt.Some? && attempt.value.stage.Landed? && attempt.value.stage.request.batchIndex == batchIndex
    then Some(attempt.value.(stage := Prepared(attempt.value.stage.request)))
    else attempt
  }

  function Next(w: World, step: Step): Option<World> {
    match step
    case Deploy(chainRoomId) =>
      if w.room.phase != ROOM_READY then None
      else Some(w.(room := w.room.(phase := ACTIVE, chainRoomId := Some(chainRoomId))))
    case AddMove(id, selectors, preset, input, at) =>
      var action := State.BuildDemoAction(w.room.actions, selectors, preset, input, id);
      if !IsOpen(w.room.phase) || action.Err? then None
      else if exists a :: a in w.room.actions && a.id == id then None
      else if w.mode.BrowserSigned? && input.signedTransaction.None? then None
      else Some(w.(room := w.room.(actions := w.room.actions + [action.value], updatedAt := at)))
    case Start(force, planAt, triggerAt, at) =>
      var pending := State.AssertCheckpointable(w.room, force, planAt);
      if pending.Err? || w.attempt.Some? || !(planAt <= triggerAt <= at) then None
      else
        var started := State.Started(w.room, pending.value, State.TriggerOf(w.room, force, triggerAt), at);
        Some(w.(room := started,
                attempt := Some(Attempt(|w.room.checkpoints|, Ids(pending.value), w.room.phase, Queued))))
    case Prepare(prover, failAt) =>
      if w.attempt.None? || w.attempt.value.stage != Queued || w.attempt.value.index >= |w.room.checkpoints| then None
      else PrepareNext(w, prover, failAt)
    case Advance(phase) =>
      if w.attempt.None? || w.attempt.value.stage == Queued then None
      else if phase !in {PROVING, LOCALLY_VERIFIED, L1_PENDING, L1_ACCEPTED, L1_FINALIZED} then None
      else Some(w.(room := w.room.(phase := phase)))
    case Land(stateRoot, height, epoch) =>
      if w.attempt.None? || !w.attempt.value.stage.Prepared? then None
      else if w.attempt.value.stage.request.batchIndex != w.chain.batchIndex + 1 then None
      else
        Some(w.(attempt := Some(w.attempt.value.(stage := Landed(w.attempt.value.stage.request))),
                chain := w.chain.(batchIndex := w.chain.batchIndex + 1, stateRoot := stateRoot,
                                  l2BlockHeight := height, outboxEpoch := epoch)))
    case OrphanLands(which) =>
      if which >= |w.afloat| || w.afloat[which] != w.chain.batchIndex + 1 then None
      else Some(w.(chain := w.chain.(batchIndex := w.chain.batchIndex + 1)))
    case Drop(stateRoot, height, epoch) =>
      if w.chain.batchIndex <= w.finalized then None
      else
        Some(w.(attempt := Unlanded(w.attempt, w.chain.batchIndex),
                chain := w.chain.(batchIndex := w.chain.batchIndex - 1, stateRoot := stateRoot,
                                  l2BlockHeight := height, outboxEpoch := epoch)))
    case Finalize(batches) =>
      if w.finalized <= batches <= w.chain.batchIndex then Some(w.(finalized := batches)) else None
    case Complete(result, at) =>
      if w.attempt.None? || !w.attempt.value.stage.Landed? || w.attempt.value.index >= |w.room.checkpoints| then None
      else if w.attempt.value.stage.request.batchIndex > w.finalized then None
      else
        var attempt := w.attempt.value;
        var done := State.Completed(w.room, attempt.index, result, at);
        Some(w.(room := done.(phase := L1_FINALIZED), attempt := None,
                sent := w.sent + [attempt.stage.request.rawTransactions]))
    case Fail(reason, at) =>
      if w.attempt.None? || w.attempt.value.index >= |w.room.checkpoints| then None
      else Some(Abandon(w, w.room.actions, reason, at))
    case Close(at) =>
      Some(w.(room := w.room.(phase := CLOSED, updatedAt := at)))
    case Restart(at) =>
      Some(w.(room := State.Restored(w.room, at), attempt := None,
              afloat := w.afloat + (if w.attempt.Some? then Unresolved(w.attempt.value) else [])))
    case Retract(index, reason, at) =>
      if w.attempt.Some? || !State.IsNewestAccepted(w.room.checkpoints, index) then None
      else if w.sent == [] || w.chain.batchIndex != |w.sent| then None
      else
        Some(w.(room := State.RolledBack(w.room, index, reason, at),
                chain := w.chain.(batchIndex := w.chain.batchIndex - 1),
                finalized := if w.finalized < w.chain.batchIndex then w.finalized else w.chain.batchIndex - 1,
                sent := w.sent[..|w.sent| - 1]))
  }

  /** The world after a run, or None when some step of it was not possible. */
  function Run(w: World, steps: seq<Step>): Option<World> {
    if steps == [] then Some(w)
    else
      var before := Run(w, steps[..|steps| - 1]);
      if before.None? then None else Next(before.value, steps[|steps| - 1])
  }

  // ----- What every reachable world satisfies

  /** The moves after the stamped prefix that the running attempt carries. */
  function Segment(actions: seq<Action>, records: seq<Record>, n: nat): seq<Action>
    requires |Carried(records)| + n <= |actions|
  {
    actions[|Carried(records)|..|Carried(records)| + n]
  }

  predicate AttemptOk(actions: seq<Action>, records: seq<Record>, attempt: Option<Attempt>) {
    if attempt.None? then !HasRunning(records)
    else
      && records != [] && records[|records| - 1].outcome == RUNNING
      && attempt.value.index == |records| - 1
      && attempt.value.carried == records[|records| - 1].actionIds
      && |Carried(records)| + |attempt.value.carried| <= |actions|
      && InBlock(Segment(actions, records, |attempt.value.carried|), One) != []
      && InBlock(Segment(actions, records, |attempt.value.carried|), Two) != []
  }

  /** Each accepted attempt sent the history up to and including its own two blocks. */
  predicate SentPrefixes(history: seq<seq<Envelope>>, sent: seq<seq<seq<Envelope>>>) {
    && |history| == 2 * |sent|
    && (forall j :: 0 <= j < |sent| ==> sent[j] == history[..2 * (j + 1)])
  }

  predicate HistoryOk(actions: seq<Action>, records: seq<Record>, sent: seq<seq<seq<Envelope>>>) {
    && |AcceptedOf(records)| == |sent|
    && ProvedBlocks(actions, records).Ok?
    && SentPrefixes(ProvedBlocks(actions, records).value, sent)
  }

  predicate RequestOk(actions: seq<Action>, records: seq<Record>, sent: seq<seq<seq<Envelope>>>, attempt: Option<Attempt>)
    requires AttemptOk(actions, records, attempt) && HistoryOk(actions, records, sent)
  {
    attempt.Some? && attempt.value.stage != Queued ==>
      var segment := Segment(actions, records, |attempt.value.carried|);
      && AllSigned(segment)
      && attempt.value.stage.request
         == BatchRequest(|sent| + 1,
                         ProvedBlocks(actions, records).value + [SignedBlocks(segment).0, SignedBlocks(segment).1])
  }

  predicate ModeOk(mode: Mode, actions: seq<Action>) {
    match mode
    case BrowserSigned => AllSigned(actions)
    case FixtureSigned(options) => NoncesAreRanks(actions, options)
    case ShopSigned(options) => NoncesAreRanks(actions, options)
  }

  /** Batches the chain holds that no attempt is recorded, or still going to be recorded, as having carried. */
  function Gap(w: World): int {
    w.chain.batchIndex - |w.sent| - (if w.attempt.Some? && w.attempt.value.stage.Landed? then 1 else 0)
  }

  predicate Inv(w: World) {
    && CursorInv(w.room)
    && AttemptOk(w.room.actions, w.room.checkpoints, w.attempt)
    && HistoryOk(w.room.actions, w.room.checkpoints, w.sent)
    && RequestOk(w.room.actions, w.room.checkpoints, w.sent, w.attempt)
    && ModeOk(w.mode, w.room.actions)
    && Gap(w) >= 0
    && |w.sent| <= w.finalized <= w.chain.batchIndex
  }

  // ----- Each step keeps it

  lemma HistoryExtends(before: seq<Action>, after: seq<Action>, records: seq<Record>, sent: seq<seq<seq<Envelope>>>)
    requires HistoryInv(records) && DistinctIds(after) && LogExtends(before, after)
    requires HistoryOk(before, records, sent)
    ensures HistoryOk(after, records, sent)
    ensures ProvedBlocks(after, records) == ProvedBlocks(before, records)
  {
    ExtendingKeepsEnvelopes(before, after);
    ProvedBlocksInOrder(before, records);
    ProvedBlocksInOrder(after, records);
    BlocksMonotone(before, after, AcceptedOf(records));
  }

  /** Attempts that do not end accepted leave the replayed history alone. */
  lemma HistoryIgnoresOthers(actions: seq<Action>, records: seq<Record>, others: seq<Record>)
    requires HistoryInv(records) && HistoryInv(others)
    requires AcceptedOf(others) == AcceptedOf(records)
    ensures ProvedBlocks(actions, others) == ProvedBlocks(actions, records)
  {
    ProvedBlocksInOrder(actions, records);
    ProvedBlocksInOrder(actions, others);
  }

  lemma AddStep(w: World, action: Action, at: int)
    requires Inv(w) && action.stamp.None? && (forall a :: a in w.room.actions ==> a.id != action.id)
    requires action.signed.Some? ==> action.signed.value.Browser?
    requires w.mode.BrowserSigned? ==> action.signed.Some?
    ensures Inv(w.(room := w.room.(actions := w.room.actions + [action], updatedAt := at)))
  {
    var room := w.room;
    var after := room.actions + [action];
    State.AddKeepsCursor(room, action);
    HistoryExtends(room.actions, after, room.checkpoints, w.sent);
    if w.attempt.Some? {
      var n := |w.attempt.value.carried|;
      assert Segment(after, room.checkpoints, n) == Segment(room.actions, room.checkpoints, n);
    }
    AddMode(w.mode, room.actions, action);
  }

  lemma StartStep(w: World, force: bool, planAt: int, trigger: Policy.Trigger, at: int)
    requires Inv(w) && w.attempt.None? && State.AssertCheckpointable(w.room, force, planAt).Ok?
    ensures var pending := Pending(w.room.actions);
            Inv(w.(room := State.Started(w.room, pending, trigger, at),
                   attempt := Some(Attempt(|w.room.checkpoints|, Ids(pending), w.room.phase, Queued))))
  {
    var room := w.room;
    var pending := Pending(room.actions);
    var started := State.Started(room, pending, trigger, at);
    State.StartKeepsCursor(room, trigger, at);
    PendingAfterPrefix(room);
    StartedHistory(room.actions, room.checkpoints, started.checkpoints[|room.checkpoints|], w.sent);
    assert Segment(room.actions, started.checkpoints, |pending|) == pending;
  }

  lemma StartedHistory(actions: seq<Action>, records: seq<Record>, record: Record, sent: seq<seq<seq<Envelope>>>)
    requires HistoryOk(actions, records, sent) && HistoryInv(records) && HistoryInv(records + [record])
    requires record.outcome == RUNNING
    ensures HistoryOk(actions, records + [record], sent)
  {
    AcceptedAppend(records, record);
    HistoryIgnoresOthers(actions, records, records + [record]);
  }

  lemma SigningStep(w: World, after: seq<Action>)
    requires Inv(w) && w.attempt.Some? && w.attempt.value.stage == Queued
    requires OnlySigns(w.room.actions, after) && ModeOk(w.mode, after)
    ensures Inv(w.(room := w.room.(actions := after)))
    ensures ProvedBlocks(after, w.room.checkpoints) == ProvedBlocks(w.room.actions, w.room.checkpoints)
  {
    var room := w.room;
    HistoryExtends(room.actions, after, room.checkpoints, w.sent);
    SignedAttempt(room.actions, after, room.checkpoints, w.attempt.value);
  }

  lemma SignedAttempt(actions: seq<Action>, after: seq<Action>, records: seq<Record>, attempt: Attempt)
    requires AttemptOk(actions, records, Some(attempt)) && RunningCarriesPending(actions, records) && OnlySigns(actions, after)
    ensures AttemptOk(after, records, Some(attempt)) && RunningCarriesPending(after, records)
  {
    var a, b := Segment(actions, records, |attempt.carried|), Segment(after, records, |attempt.carried|);
    SegmentBlocks(a, b, One);
    SegmentBlocks(a, b, Two);
    assert Ids(a) == Ids(b);
  }

  lemma SegmentBlocks(a: seq<Action>, b: seq<Action>, block: Block)
    requires |a| == |b| && (forall i :: 0 <= i < |a| ==> a[i].block == b[i].block) && InBlock(a, block) != []
    ensures InBlock(b, block) != []
  {
    State.SameBlocks(a, b, block);
  }

  lemma SignCarriedOnlySigns(mode: Mode, actions: seq<Action>, ids: seq<ActionId>)
    requires DistinctIds(actions) && ModeOk(mode, actions)
    ensures OnlySigns(actions, SignCarried(mode, actions, ids).log)
    ensures ModeOk(mode, SignCarried(mode, actions, ids).log)
  {
    match mode
    case BrowserSigned =>
    case FixtureSigned(options) =>
      SignAllIsPointwise(actions, options, ids);
      SigningKeepsRanks(actions, options, ids);
    case ShopSigned(options) =>
      SignAllIsPointwise(actions, options, Ids(Carry(actions, ids)));
      SigningKeepsRanks(actions, options, Ids(Carry(actions, ids)));
  }

  lemma {:induction false} CarryFound(actions: seq<Action>, segment: seq<Action>)
    requires forall i :: 0 <= i < |segment| ==> Find(actions, segment[i].id) == Some(segment[i])
    ensures Carry(actions, Ids(segment)) == segment
  {
    if segment != [] {
      var front := segment[..|segment| - 1];
      CarryFound(actions, front);
      assert Ids(segment)[..|segment| - 1] == Ids(front);
    }
  }

  lemma FindInSegment(actions: seq<Action>, k: nat, n: nat, i: nat)
    requires DistinctIds(actions) && k + n <= |actions| && i < n
    ensures Find(actions, actions[k..k + n][i].id) == Some(actions[k..k + n][i])
  {
    assert actions[k..k + n][i] == actions[k + i];
    FindDistinct(actions, k + i);
  }

  lemma CarrySegment(actions: seq<Action>, k: nat, n: nat)
    requires DistinctIds(actions) && k + n <= |actions|
    ensures Carry(actions, Ids(actions[k..k + n])) == actions[k..k + n]
  {
    var segment := actions[k..k + n];
    forall i | 0 <= i < |segment|
      ensures Find(actions, segment[i].id) == Some(segment[i])
    {
      FindInSegment(actions, k, n, i);
    }
    CarryFound(actions, segment);
  }

  lemma FailStep(w: World, reason: string, at: int)
    requires Inv(w) && w.attempt.Some?
    ensures Inv(Abandon(w, w.room.actions, reason, at))
  {
    var room, index := w.room, w.attempt.value.index;
    State.FailKeepsCursor(room, index, reason, at);
    var failed := State.Failed(room, index, reason, at);
    FailedHistory(room.checkpoints, index, failed.checkpoints[index]);
    HistoryIgnoresOthers(room.actions, room.checkpoints, failed.checkpoints);
  }

  lemma FailedHistory(records: seq<Record>, index: nat, failed: Record)
    requires index == |records| - 1 && records[index].outcome == RUNNING && failed.outcome == FAILED
    ensures AcceptedOf(records[index := failed]) == AcceptedOf(records)
  {
    assert records == records[..index] + [records[index]];
    assert records[index := failed] == records[..index] + [failed];
    AcceptedAppend(records[..index], records[index]);
    AcceptedAppend(records[..index], failed);
  }

  lemma RestartStep(w: World, at: int)
    requires Inv(w)
    ensures Inv(w.(room := State.Restored(w.room, at), attempt := None))
  {
    var restored := State.Restored(w.room, at);
    State.RestoreKeepsCursor(w.room, at);
    if w.attempt.Some? {
      var last := |w.room.checkpoints| - 1;
      assert restored.checkpoints == w.room.checkpoints[last := restored.checkpoints[last]];
      FailedHistory(w.room.checkpoints, last, restored.checkpoints[last]);
    } else {
      assert restored.checkpoints == w.room.checkpoints;
    }
    HistoryIgnoresOthers(w.room.actions, w.room.checkpoints, restored.checkpoints);
  }

  /** A successful request names the next batch and carries the whole history plus the attempt's own blocks. */
  lemma RequestIsHistoryPlusBatch(room: Room, carried: seq<Action>, sequence: nat, chain: OnChainRoom, sent: seq<seq<seq<Envelope>>>)
    requires HistoryOk(room.actions, room.checkpoints, sent) && |sent| <= chain.batchIndex
    requires AllSigned(carried) && carried != [] && sequence >= 1
    ensures var request := BatchRequestOf(room, carried, sequence, chain);
            && (request.Ok? <==> |sent| == chain.batchIndex)
            && (request.Ok? ==>
                 request.value == BatchRequest(
                   |sent| + 1,
                   ProvedBlocks(room.actions, room.checkpoints).value + [SignedBlocks(carried).0, SignedBlocks(carried).1]))
  {
    var own := [SignedBlocks(carried).0, SignedBlocks(carried).1];
    if chain.batchIndex == 0 {
      assert ProvedBlocks(room.actions, room.checkpoints).value == [];
      assert [] + own == own;
    }
  }

  lemma CarriedSegment(w: World)
    requires Inv(w) && w.attempt.Some?
    ensures Carry(w.room.actions, w.attempt.value.carried)
            == Segment(w.room.actions, w.room.checkpoints, |w.attempt.value.carried|)
  {
    CarriedIsSegment(w.room.actions, w.room.checkpoints, w.attempt.value);
  }

  lemma CarriedIsSegment(actions: seq<Action>, records: seq<Record>, attempt: Attempt)
    requires DistinctIds(actions) && AttemptOk(actions, records, Some(attempt)) && RunningCarriesPending(actions, records)
    ensures Carry(actions, attempt.carried) == Segment(actions, records, |attempt.carried|)
  {
    CarrySegment(actions, |Carried(records)|, |attempt.carried|);
  }

  lemma RequestStep(w: World, request: BatchRequest)
    requires Inv(w) && w.attempt.Some? && w.attempt.value.stage == Queued
    requires var carried := Carry(w.room.actions, w.attempt.value.carried);
             && carried != [] && AllSigned(carried)
             && BatchRequestOf(w.room, carried, w.attempt.value.index + 1, w.chain) == Ok(request)
    ensures Inv(w.(attempt := Some(w.attempt.value.(stage := Prepared(request)))))
  {
    var carried := Carry(w.room.actions, w.attempt.value.carried);
    CarriedSegment(w);
    RequestIsHistoryPlusBatch(w.room, carried, w.attempt.value.index + 1, w.chain, w.sent);
  }

  lemma PrepareStep(w: World, prover: Option<PreparedJournal>, failAt: int)
    requires Inv(w) && w.attempt.Some? && w.attempt.value.stage == Queued
    ensures PrepareNext(w, prover, failAt).Some? ==> Inv(PrepareNext(w, prover, failAt).value)
  {
    var attempt := w.attempt.value;
    var signing := SignCarried(w.mode, w.room.actions, attempt.carried);
    var signed := w.(room := w.room.(actions := signing.log));
    assert Inv(signed) by {
      SignCarriedOnlySigns(w.mode, w.room.actions, attempt.carried);
      SigningStep(w, signing.log);
    }
    if signing.failure.Some? {
      FailStep(signed, "signing refused", failAt);
    } else {
      var carried := Carry(signing.log, attempt.carried);
      if carried != [] && AllSigned(carried) {
        var request := BatchRequestOf(signed.room, carried, attempt.index + 1, w.chain);
        if request.Err? {
          FailStep(signed, "history cannot be replayed", failAt);
        } else if !PreparedMatches(prover, ContinuationFor(attempt.index + 1, w.chain)) {
          FailStep(signed, "prover did not continue the room", failAt);
        } else {
          RequestStep(signed, request.value);
        }
      }
    }
  }

  /** Acceptance adds one record to the accepted ones and its two blocks to the history. */
  lemma CompletedBlocks(actions: seq<Action>, records: seq<Record>, done: Record, k: nat, n: nat)
    requires DistinctIds(actions) && HistoryInv(records) && HasRunning(records) && ProvedBlocks(actions, records).Ok?
    requires done.outcome == ACCEPTED && done.result.Some? && done.sequence == |records|
    requires k + n <= |actions| && done.actionIds == Ids(actions[k..k + n]) && AllSigned(actions[k..k + n])
    requires InBlock(actions[k..k + n], One) != [] && InBlock(actions[k..k + n], Two) != []
    ensures var blocks := SignedBlocks(actions[k..k + n]);
            && |AcceptedOf(records[|records| - 1 := done])| == |AcceptedOf(records)| + 1
            && ProvedBlocks(State.Stamped(actions, State.IdSet(done.actionIds), done.sequence), records[|records| - 1 := done])
               == Ok(ProvedBlocks(actions, records).value + [blocks.0, blocks.1])
  {
    AcceptedOnCompletion(records, done);
    CompletionAppendsBlocks(actions, records, done, k, n);
  }

  lemma CompleteHistory(
    actions: seq<Action>, records: seq<Record>, sent: seq<seq<seq<Envelope>>>, done: Record, n: nat, request: seq<seq<Envelope>>)
    requires DistinctIds(actions) && HistoryInv(records) && HasRunning(records) && HistoryOk(actions, records, sent)
    requires done.outcome == ACCEPTED && done.result.Some? && done.sequence == |records|
    requires |Carried(records)| + n <= |actions| && done.actionIds == Ids(Segment(actions, records, n))
    requires AllSigned(Segment(actions, records, n))
    requires InBlock(Segment(actions, records, n), One) != [] && InBlock(Segment(actions, records, n), Two) != []
    requires var blocks := SignedBlocks(Segment(actions, records, n));
             request == ProvedBlocks(actions, records).value + [blocks.0, blocks.1]
    ensures HistoryOk(State.Stamped(actions, State.IdSet(done.actionIds), done.sequence),
                      records[|records| - 1 := done], sent + [request])
  {
    var blocks := SignedBlocks(Segment(actions, records, n));
    CompletedBlocks(actions, records, done, |Carried(records)|, n);
    PrefixesGrow(ProvedBlocks(actions, records).value, sent, blocks.0, blocks.1);
    HistoryGrew(State.Stamped(actions, State.IdSet(done.actionIds), done.sequence), records[|records| - 1 := done],
                sent, request);
  }

  lemma HistoryGrew(actions: seq<Action>, records: seq<Record>, sent: seq<seq<seq<Envelope>>>, request: seq<seq<Envelope>>)
    requires |AcceptedOf(records)| == |sent| + 1 && ProvedBlocks(actions, records) == Ok(request)
    requires SentPrefixes(request, sent + [request])
    ensures HistoryOk(actions, records, sent + [request])
  {
  }

  lemma CompleteMode(mode: Mode, actions: seq<Action>, proved: set<ActionId>, sequence: nat)
    requires ModeOk(mode, actions)
    ensures ModeOk(mode, State.Stamped(actions, proved, sequence))
  {
    if !mode.BrowserSigned? {
      GrowthKeepsRanks(actions, State.Stamped(actions, proved, sequence), mode.options);
    }
  }

  lemma CompleteStep(w: World, result: CheckpointResult, at: int)
    requires Inv(w) && w.attempt.Some? && w.attempt.value.stage.Landed?
    requires w.attempt.value.stage.request.batchIndex <= w.finalized
    ensures var attempt := w.attempt.value;
            Inv(w.(room := State.Completed(w.room, attempt.index, result, at).(phase := L1_FINALIZED), attempt := None,
                   sent := w.sent + [attempt.stage.request.rawTransactions]))
  {
    var room, attempt := w.room, w.attempt.value;
    var record := State.Completed(room, attempt.index, result, at).checkpoints[attempt.index];
    State.CompleteKeepsCursor(room, result, at);
    CompleteHistory(room.actions, room.checkpoints, w.sent, record, |attempt.carried|, attempt.stage.request.rawTransactions);
    CompleteMode(w.mode, room.actions, State.IdSet(record.actionIds), record.sequence);
  }

  lemma PrefixesGrow(history: seq<seq<Envelope>>, sent: seq<seq<seq<Envelope>>>, a: seq<Envelope>, b: seq<Envelope>)
    requires SentPrefixes(history, sent)
    ensures SentPrefixes(history + [a, b], sent + [history + [a, b]])
  {
    var extended := history + [a, b];
    forall j | 0 <= j <= |sent|
      ensures (sent + [extended])[j] == extended[..2 * (j + 1)]
    {
      if j < |sent| {
        assert history[..2 * (j + 1)] == extended[..2 * (j + 1)];
      } else {
        assert extended[..2 * (j + 1)] == extended;
      }
    }
  }

  lemma PrefixesShrink(shorter: seq<seq<Envelope>>, sent: seq<seq<seq<Envelope>>>, a: seq<Envelope>, b: seq<Envelope>)
    requires SentPrefixes(shorter + [a, b], sent) && sent != []
    ensures SentPrefixes(shorter, sent[..|sent| - 1])
  {
    forall j | 0 <= j < |sent| - 1
      ensures sent[j] == shorter[..2 * (j + 1)]
    {
      assert (shorter + [a, b])[..2 * (j + 1)] == shorter[..2 * (j + 1)];
    }
  }

  lemma RetractStep(w: World, index: nat, reason: string, at: int)
    requires Inv(w) && w.attempt.None? && State.IsNewestAccepted(w.room.checkpoints, index)
    requires w.sent != [] && w.chain.batchIndex == |w.sent|
    ensures Inv(w.(room := State.RolledBack(w.room, index, reason, at),
                   chain := w.chain.(batchIndex := w.chain.batchIndex - 1),
                   finalized := if w.finalized < w.chain.batchIndex then w.finalized else w.chain.batchIndex - 1,
                   sent := w.sent[..|w.sent| - 1]))
  {
    var room := w.room;
    var back := State.RolledBack(room, index, reason, at);
    State.RollbackRestoresCursor(room, index, reason, at);
    RetractedHistory(room.actions, room.checkpoints, index, back.actions, back.checkpoints[index], w.sent);
    ReopenMode(w.mode, room.actions, room.checkpoints[index].sequence);
  }

  lemma ReopenMode(mode: Mode, actions: seq<Action>, sequence: nat)
    requires ModeOk(mode, actions)
    ensures ModeOk(mode, State.Unstamped(actions, sequence))
  {
    if !mode.BrowserSigned? {
      GrowthKeepsRanks(actions, State.Unstamped(actions, sequence), mode.options);
    }
  }

  lemma AddMode(mode: Mode, actions: seq<Action>, action: Action)
    requires ModeOk(mode, actions)
    requires action.signed.Some? ==> action.signed.value.Browser?
    requires mode.BrowserSigned? ==> action.signed.Some?
    ensures ModeOk(mode, actions + [action])
  {
    if !mode.BrowserSigned? {
      GrowthKeepsRanks(actions, actions + [action], mode.options);
    }
  }

  lemma {:induction false} AcceptedOfPrefix(records: seq<Record>, k: nat)
    requires k <= |records| && forall i :: k <= i < |records| ==> records[i].outcome != ACCEPTED
    ensures AcceptedOf(records) == AcceptedOf(records[..k])
  {
    if k == |records| {
      assert records[..k] == records;
    } else {
      AcceptedOfPrefix(records[..|records| - 1], k);
      assert records[..|records| - 1][..k] == records[..k];
    }
  }

  lemma RetractedAccepted(records: seq<Record>, index: nat, failed: Record)
    requires State.IsNewestAccepted(records, index) && failed.outcome == FAILED
    ensures AcceptedOf(records[index := failed]) == AcceptedOf(records[..index])
    ensures AcceptedOf(records) == AcceptedOf(records[..index]) + [records[index]]
  {
    var back := records[index := failed];
    assert back[..index] == records[..index];
    AcceptedOfPrefix(back, index);
    AcceptedOfPrefix(records, index + 1);
    assert records[..index + 1] == records[..index] + [records[index]];
    AcceptedAppend(records[..index], records[index]);
  }

  lemma RetractedHistory(
    before: seq<Action>, records: seq<Record>, index: nat, after: seq<Action>, failed: Record, sent: seq<seq<seq<Envelope>>>)
    requires State.IsNewestAccepted(records, index) && failed.outcome == FAILED
    requires HistoryInv(records) && HistoryInv(records[index := failed])
    requires HistoryOk(before, records, sent) && sent != []
    requires DistinctIds(after) && LogExtends(before, after)
    ensures HistoryOk(after, records[index := failed], sent[..|sent| - 1])
  {
    var front := AcceptedOf(records[..index]);
    RetractedAccepted(records, index, failed);
    ProvedBlocksInOrder(before, records);
    ProvedBlocksInOrder(after, records[index := failed]);
    BlocksAppend(before, front, records[index]);
    ExtendingKeepsEnvelopes(before, after);
    BlocksMonotone(before, after, front);
    var split := SplitOf(before, records[index].sequence, records[index].actionIds).value;
    PrefixesShrink(BlocksOf(before, front).value, sent, split.0, split.1);
  }

  /** Steps that touch neither the log nor the history. */
  predicate Plain(step: Step) {
    step.Deploy? || step.Advance? || step.Land? || step.OrphanLands? || step.Drop? || step.Finalize?
    || step.Close?
  }

  lemma PlainStep(w: World, step: Step)
    requires Inv(w) && Plain(step) && Next(w, step).Some?
    ensures Inv(Next(w, step).value)
  {
    var after := Next(w, step).value;
    assert after.room.actions == w.room.actions && after.room.checkpoints == w.room.checkpoints;
    assert after.sent == w.sent && after.mode == w.mode;
  }

  lemma RequestedAdd(w: World, step: Step)
    requires Inv(w) && step.AddMove? && Next(w, step).Some?
    ensures Inv(Next(w, step).value)
  {
    AddStep(w, State.BuildDemoAction(w.room.actions, step.selectors, step.preset, step.input, step.id).value, step.at);
  }

  lemma NextKeepsInv(w: World, step: Step)
    requires Inv(w) && Next(w, step).Some?
    ensures Inv(Next(w, step).value)
  {
    match step
    case AddMove(_, _, _, _, _) => RequestedAdd(w, step);
    case Start(force, planAt, triggerAt, at) =>
      StartStep(w, force, planAt, State.TriggerOf(w.room, force, triggerAt), at);
    case Prepare(prover, failAt) => PrepareStep(w, prover, failAt);
    case Complete(result, at) => CompleteStep(w, result, at);
    case Fail(reason, at) => FailStep(w, reason, at);
    case Restart(at) => RestartStep(w, at);
    case Retract(index, reason, at) => RetractStep(w, index, reason, at);
    case _ => PlainStep(w, step);
  }

  /** Every world a run reaches is consistent. */
  lemma {:induction false} RunKeepsInv(w: World, steps: seq<Step>)
    requires Inv(w) && Run(w, steps).Some?
    ensures Inv(Run(w, steps).value)
  {
    if steps != [] {
      RunKeepsInv(w, steps[..|steps| - 1]);
      NextKeepsInv(Run(w, steps[..|steps| - 1]).value, steps[|steps| - 1]);
    }
  }

  lemma InitialInv(mode: Mode, createdAt: int, deadline: Option<nat>, chain: OnChainRoom)
    requires chain.batchIndex == 0
    ensures Inv(Initial(mode, createdAt, deadline, chain))
  {
  }
}
