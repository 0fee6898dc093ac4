/** What every run of a room guarantees about the batches it replays and settles. */
module RoomGuarantees {
  import opened Wrappers
  import opened RoomModel
  import opened Replay
  import opened FixtureSigning
  import opened RoomRuns
  import State = CheckpointState

  // ----- What every run guarantees

  /**
   * After any run, for any two-block batch of signed moves on a room the chain
   * holds at batch N - 1 > 0: the replay request exists exactly when as many
   * attempts are recorded accepted as the chain holds batches, and then it
   * carries 2N blocks, the first 2N - 2 being what the accepted attempt for
   * batch N - 1 sent.
   */
  lemma ReplayReproducesHistory(
    mode: Mode, createdAt: int, deadline: Option<nat>, chain: OnChainRoom, steps: seq<Step>, carried: seq<Action>)
    requires chain.batchIndex == 0
    requires Run(Initial(mode, createdAt, deadline, chain), steps).Some?
    requires AllSigned(carried) && InBlock(carried, One) != [] && InBlock(carried, Two) != []
    ensures var w := Run(Initial(mode, createdAt, deadline, chain), steps).value;
            var N := w.chain.batchIndex + 1;
            var request := ReplayRequest(w.room, MovesOf(carried), Some(ContinuationOf(w.chain)));
            && |AcceptedOf(w.room.checkpoints)| == |w.sent| <= w.chain.batchIndex
            && (N > 1 ==> (request.Ok? <==> |AcceptedOf(w.room.checkpoints)| == w.chain.batchIndex))
            && (N > 1 && request.Ok? ==>
                 && request.value.Some?
                 && request.value.value.batchIndex == N
                 && |request.value.value.rawTransactions| == 2 * N
                 && request.value.value.rawTransactions[..2 * N - 2] == w.sent[N - 2]
                 && request.value.value.rawTransactions[2 * N - 2..] == [SignedBlocks(carried).0, SignedBlocks(carried).1])
  {
    InitialInv(mode, createdAt, deadline, chain);
    RunKeepsInv(Initial(mode, createdAt, deadline, chain), steps);
    var w := Run(Initial(mode, createdAt, deadline, chain), steps).value;
    var history := ProvedBlocks(w.room.actions, w.room.checkpoints).value;
    assert carried != [];
    if |w.sent| == w.chain.batchIndex > 0 {
      assert history[..2 * |w.sent|] == history;
    }
  }

  /** What an attempt really posts is that request: its own blocks for batch one, the whole history after it. */
  lemma PostedRequestGrowsHistory(mode: Mode, createdAt: int, deadline: Option<nat>, chain: OnChainRoom, steps: seq<Step>)
    requires chain.batchIndex == 0
    requires Run(Initial(mode, createdAt, deadline, chain), steps).Some?
    ensures var w := Run(Initial(mode, createdAt, deadline, chain), steps).value;
            w.attempt.Some? && w.attempt.value.stage != Queued ==>
              var request, sent := w.attempt.value.stage.request, w.sent;
              && request.batchIndex == |sent| + 1
              && |request.rawTransactions| == 2 * request.batchIndex
              && (sent != [] ==> request.rawTransactions[..2 * |sent|] == sent[|sent| - 1])
  {
    InitialInv(mode, createdAt, deadline, chain);
    RunKeepsInv(Initial(mode, createdAt, deadline, chain), steps);
    var w := Run(Initial(mode, createdAt, deadline, chain), steps).value;
    var history := ProvedBlocks(w.room.actions, w.room.checkpoints).value;
    if w.attempt.Some? && w.attempt.value.stage != Queued && w.sent != [] {
      assert history[..2 * |w.sent|] == history;
      assert w.attempt.value.stage.request.rawTransactions[..|history|] == history;
    }
  }

  /** Signing that succeeds leaves nothing the attempt carries unsigned. */
  lemma SignedCarry(mode: Mode, actions: seq<Action>, k: nat, n: nat)
    requires DistinctIds(actions) && k + n <= |actions| && ModeOk(mode, actions)
    ensures var ids := Ids(actions[k..k + n]);
            var signing := SignCarried(mode, actions, ids);
            && Carry(signing.log, ids) == signing.log[k..k + n]
            && (signing.failure.None? ==> AllSigned(signing.log[k..k + n]))
  {
    var ids := Ids(actions[k..k + n]);
    var after := SignCarried(mode, actions, ids).log;
    SignCarriedOnlySigns(mode, actions, ids);
    assert DistinctIds(after) && Ids(after[k..k + n]) == ids;
    CarrySegment(after, k, n);
    if SignCarried(mode, actions, ids).failure.None? {
      SuccessSignsAll(mode, actions, k, n);
    }
  }

  lemma AttemptCarriesSegment(w: World)
    requires Inv(w) && w.attempt.Some?
    ensures var k, n := |Carried(w.room.checkpoints)|, |w.attempt.value.carried|;
            && DistinctIds(w.room.actions) && ModeOk(w.mode, w.room.actions)
            && w.attempt.value.index < |w.room.checkpoints|
            && 0 < n && k + n <= |w.room.actions|
            && w.attempt.value.carried == Ids(w.room.actions[k..k + n])
  {
    assert Segment(w.room.actions, w.room.checkpoints, |w.attempt.value.carried|) != [];
  }

  lemma SegmentIsAnswered(w: World, k: nat, n: nat, prover: Option<PreparedJournal>, failAt: int)
    requires w.attempt.Some? && w.attempt.value.index < |w.room.checkpoints|
    requires DistinctIds(w.room.actions) && ModeOk(w.mode, w.room.actions)
    requires 0 < n && k + n <= |w.room.actions| && w.attempt.value.carried == Ids(w.room.actions[k..k + n])
    ensures PrepareNext(w, prover, failAt).Some?
  {
    SignedCarry(w.mode, w.room.actions, k, n);
  }

  /** In every reachable world, an attempt can be prepared or is refused with a reason. */
  lemma PrepareAlwaysAnswers(w: World, prover: Option<PreparedJournal>, failAt: int)
    requires Inv(w) && w.attempt.Some?
    ensures w.attempt.value.index < |w.room.checkpoints| && PrepareNext(w, prover, failAt).Some?
  {
    AttemptCarriesSegment(w);
    SegmentIsAnswered(w, |Carried(w.room.checkpoints)|, |w.attempt.value.carried|, prover, failAt);
  }

  lemma SuccessSignsAll(mode: Mode, actions: seq<Action>, k: nat, n: nat)
    requires DistinctIds(actions) && k + n <= |actions| && ModeOk(mode, actions)
    requires SignCarried(mode, actions, Ids(actions[k..k + n])).failure.None?
    ensures AllSigned(SignCarried(mode, actions, Ids(actions[k..k + n])).log[k..k + n])
  {
    match mode
    case BrowserSigned =>
    case FixtureSigned(options) => FixtureSignsAll(actions, options, k, n);
    case ShopSigned(options) =>
      CarrySegment(actions, k, n);
      CountAll(actions[k..k + n]);
      if CountSigned(actions[k..k + n]) == 0 < n {
        FixtureSignsAll(actions, options, k, n);
      }
  }

  lemma FixtureSignsAll(actions: seq<Action>, options: SigningOptions, k: nat, n: nat)
    requires DistinctIds(actions) && k + n <= |actions|
    requires SignAll(actions, options, Ids(actions[k..k + n])).failure.None?
    ensures AllSigned(SignAll(actions, options, Ids(actions[k..k + n])).log[k..k + n])
  {
    var ids := Ids(actions[k..k + n]);
    var after := SignAll(actions, options, ids).log;
    SignAllIsPointwise(actions, options, ids);
    forall i | k <= i < k + n
      ensures after[i].signed.Some?
    {
      assert ids[i - k] == actions[i].id;
    }
  }

  lemma {:induction false} CountAll(actions: seq<Action>)
    ensures CountSigned(actions) == |actions| ==> AllSigned(actions)
  {
    if actions != [] {
      CountAll(actions[1..]);
      assert forall i :: 1 <= i < |actions| ==> actions[i] == actions[1..][i - 1];
    }
  }

  // ----- Block sizes

  predicate BlocksSized(blocks: seq<seq<Envelope>>) {
    forall i :: 0 <= i < |blocks| ==> 1 <= |blocks[i]| <= State.ACTIONS_PER_ROOM_BLOCK
  }

  predicate Sized(actions: seq<Action>, records: seq<Record>) {
    && |InBlock(Pending(actions), One)| <= State.ACTIONS_PER_ROOM_BLOCK
    && |InBlock(Pending(actions), Two)| <= State.ACTIONS_PER_ROOM_BLOCK
    && ProvedBlocks(actions, records).Ok?
    && BlocksSized(ProvedBlocks(actions, records).value)
  }

  lemma {:induction false} InBlockOfPart(actions: seq<Action>, i: nat, j: nat, block: Block)
    requires i <= j <= |actions|
    ensures |InBlock(actions[i..j], block)| <= |InBlock(actions, block)|
  {
    InBlockConcat(actions[..i], actions[i..], block);
    InBlockConcat(actions[i..j], actions[j..], block);
    assert actions == actions[..i] + actions[i..] && actions[i..] == actions[i..j] + actions[j..];
  }

  predicate FitsBeside(reopened: seq<Action>, waiting: seq<Action>, block: Block) {
    |InBlock(reopened, block)| + |InBlock(waiting, block)| <= State.ACTIONS_PER_ROOM_BLOCK
  }

  /** The moves a retraction reopens and the ones waiting fit their blocks together. */
  predicate RetractFits(room: Room, index: nat) {
    index < |room.checkpoints| ==>
      && FitsBeside(State.Reopened(room, index), Pending(room.actions), One)
      && FitsBeside(State.Reopened(room, index), Pending(room.actions), Two)
  }

  /** What a retraction leaves of the replayed history is its beginning. */
  lemma RetractedHistoryIsPrefix(w: World, after: World)
    requires HistoryOk(w.room.actions, w.room.checkpoints, w.sent) && w.sent != []
    requires HistoryOk(after.room.actions, after.room.checkpoints, w.sent[..|w.sent| - 1])
    ensures ProvedBlocks(after.room.actions, after.room.checkpoints).value
            <= ProvedBlocks(w.room.actions, w.room.checkpoints).value
  {
    var before, kept := ProvedBlocks(w.room.actions, w.room.checkpoints).value, ProvedBlocks(after.room.actions, after.room.checkpoints).value;
    var m := |w.sent| - 1;
    if m > 0 {
      assert w.sent[..m][m - 1] == w.sent[m - 1];
      assert kept[..2 * m] == kept;
    }
  }

  lemma ReopenedFitsIff(room: Room, index: nat, reason: string, at: int)
    requires CursorInv(room) && !HasRunning(room.checkpoints) && State.IsNewestAccepted(room.checkpoints, index)
    ensures var pending := Pending(State.RolledBack(room, index, reason, at).actions);
            |InBlock(pending, One)| <= State.ACTIONS_PER_ROOM_BLOCK && |InBlock(pending, Two)| <= State.ACTIONS_PER_ROOM_BLOCK
            <==> RetractFits(room, index)
  {
    State.RollbackReopens(room, index, reason, at, One);
    State.RollbackReopens(room, index, reason, at, Two);
  }

  lemma RetractedWorld(w: World, step: Step)
    requires Inv(w) && step.Retract? && Next(w, step).Some?
    ensures CursorInv(w.room) && !HasRunning(w.room.checkpoints) && State.IsNewestAccepted(w.room.checkpoints, step.index)
    ensures Next(w, step).value.room == State.RolledBack(w.room, step.index, step.reason, step.at)
    ensures HistoryOk(w.room.actions, w.room.checkpoints, w.sent) && w.sent != []
    ensures var after := Next(w, step).value; HistoryOk(after.room.actions, after.room.checkpoints, w.sent[..|w.sent| - 1])
  {
    NextKeepsInv(w, step);
  }

  /** A retraction keeps the room within its block sizes exactly when what it reopens fits beside what waits. */
  lemma RetractKeepsSizedIff(w: World, step: Step)
    requires Inv(w) && Sized(w.room.actions, w.room.checkpoints) && step.Retract? && Next(w, step).Some?
    ensures Sized(Next(w, step).value.room.actions, Next(w, step).value.room.checkpoints) <==> RetractFits(w.room, step.index)
  {
    RetractedWorld(w, step);
    ReopenedFitsIff(w.room, step.index, step.reason, step.at);
    RetractedHistoryIsPrefix(w, Next(w, step).value);
  }

  lemma {:induction false} StampingShrinksPending(actions: seq<Action>, proved: set<ActionId>, sequence: nat, block: Block)
    ensures |InBlock(Pending(State.Stamped(actions, proved, sequence)), block)| <= |InBlock(Pending(actions), block)|
  {
    if actions != [] {
      var after := State.Stamped(actions, proved, sequence);
      assert after[1..] == State.Stamped(actions[1..], proved, sequence);
      StampingShrinksPending(actions[1..], proved, sequence, block);
      InBlockConcat(if actions[0].stamp.None? then [actions[0]] else [], Pending(actions[1..]), block);
      InBlockConcat(if after[0].stamp.None? then [after[0]] else [], Pending(after[1..]), block);
    }
  }

  lemma SegmentIsSized(actions: seq<Action>, records: seq<Record>, n: nat)
    requires StampedPrefix(actions, Carried(records)) && |Carried(records)| + n <= |actions|
    ensures |InBlock(Segment(actions, records, n), One)| <= |InBlock(Pending(actions), One)|
    ensures |InBlock(Segment(actions, records, n), Two)| <= |InBlock(Pending(actions), Two)|
  {
    var k := |Carried(records)|;
    PendingIsSuffix(actions, k);
    assert actions[k..][..n] == actions[k..k + n];
    InBlockOfPart(actions[k..], 0, n, One);
    InBlockOfPart(actions[k..], 0, n, Two);
  }

  lemma SizedAppend(history: seq<seq<Envelope>>, a: seq<Envelope>, b: seq<Envelope>)
    requires BlocksSized(history)
    requires 1 <= |a| <= State.ACTIONS_PER_ROOM_BLOCK && 1 <= |b| <= State.ACTIONS_PER_ROOM_BLOCK
    ensures BlocksSized(history + [a, b])
  {
  }

  predicate CarriesSignedBlocks(actions: seq<Action>, records: seq<Record>, n: nat) {
    && DistinctIds(actions) && HistoryInv(records) && HasRunning(records)
    && StampedPrefix(actions, Carried(records)) && |Carried(records)| + n <= |actions|
    && AllSigned(Segment(actions, records, n))
    && InBlock(Segment(actions, records, n), One) != []
    && InBlock(Segment(actions, records, n), Two) != []
  }

  lemma CompletionKeepsSized(actions: seq<Action>, records: seq<Record>, done: Record, n: nat)
    requires CarriesSignedBlocks(actions, records, n) && Sized(actions, records)
    requires done.outcome == ACCEPTED && done.result.Some? && done.sequence == |records|
    requires done.actionIds == Ids(Segment(actions, records, n))
    ensures Sized(State.Stamped(actions, State.IdSet(done.actionIds), done.sequence), records[|records| - 1 := done])
  {
    var after, blocks := State.Stamped(actions, State.IdSet(done.actionIds), done.sequence), SignedBlocks(Segment(actions, records, n));
    StampingShrinksPending(actions, State.IdSet(done.actionIds), done.sequence, One);
    StampingShrinksPending(actions, State.IdSet(done.actionIds), done.sequence, Two);
    assert BlocksSized(ProvedBlocks(actions, records).value + [blocks.0, blocks.1]) by {
      SegmentIsSized(actions, records, n);
      SizedAppend(ProvedBlocks(actions, records).value, blocks.0, blocks.1);
    }
    CompletionAppendsBlocks(actions, records, done, |Carried(records)|, n);
  }

  lemma {:induction false} PendingSameShape(before: seq<Action>, after: seq<Action>, block: Block)
    requires |before| == |after|
    requires forall i :: 0 <= i < |before| ==> before[i].block == after[i].block && before[i].stamp == after[i].stamp
    ensures |InBlock(Pending(after), block)| == |InBlock(Pending(before), block)|
  {
    if before != [] {
      PendingSameShape(before[1..], after[1..], block);
      InBlockConcat(if before[0].stamp.None? then [before[0]] else [], Pending(before[1..]), block);
      InBlockConcat(if after[0].stamp.None? then [after[0]] else [], Pending(after[1..]), block);
    }
  }

  lemma SigningKeepsSized(w: World)
    requires Inv(w) && w.attempt.Some? && Sized(w.room.actions, w.room.checkpoints)
    ensures Sized(SignCarried(w.mode, w.room.actions, w.attempt.value.carried).log, w.room.checkpoints)
  {
    var actions := w.room.actions;
    var after := SignCarried(w.mode, actions, w.attempt.value.carried).log;
    SignCarriedOnlySigns(w.mode, actions, w.attempt.value.carried);
    PendingSameShape(actions, after, One);
    PendingSameShape(actions, after, Two);
    assert DistinctIds(after);
    HistoryExtends(actions, after, w.room.checkpoints, w.sent);
  }

  lemma AbandonKeepsSized(actions: seq<Action>, records: seq<Record>, index: nat, reason: string, at: int)
    requires HistoryInv(records) && index == |records| - 1 && records[index].outcome == RUNNING
    requires Sized(actions, records)
    ensures Sized(actions, records[index := State.FailedRecord(records[index], reason, at)])
  {
    var failed := State.FailedRecord(records[index], reason, at);
    FailedHistory(records, index, failed);
    HistoryIgnoresOthers(actions, records, records[index := failed]);
  }

  lemma AddKeepsSized(w: World, action: Action, selectors: seq<string>, preset: Option<State.PresetAction>, input: State.MoveRequest, id: ActionId)
    requires Inv(w) && Sized(w.room.actions, w.room.checkpoints)
    requires State.BuildDemoAction(w.room.actions, selectors, preset, input, id) == Ok(action)
    requires forall a :: a in w.room.actions ==> a.id != id
    ensures Sized(w.room.actions + [action], w.room.checkpoints)
  {
    var pending := Pending(w.room.actions);
    State.AddKeepsCursor(w.room, action);
    InBlockConcat(pending, [action], One);
    InBlockConcat(pending, [action], Two);
    InBlockOne(action);
    HistoryExtends(w.room.actions, w.room.actions + [action], w.room.checkpoints, w.sent);
  }

  lemma StartKeepsSized(actions: seq<Action>, records: seq<Record>, running: Record)
    requires HistoryInv(records) && !HasRunning(records) && Sized(actions, records)
    requires running.outcome == RUNNING && running.sequence == |records| + 1
    ensures Sized(actions, records + [running])
  {
    AcceptedAppend(records, running);
    HistoryIgnoresOthers(actions, records, records + [running]);
  }

  lemma RestartKeepsSized(actions: seq<Action>, records: seq<Record>, at: int)
    requires HistoryInv(records) && Sized(actions, records)
    ensures Sized(actions, State.RestoredRecords(records, at))
  {
    if HasRunning(records) {
      var last := |records| - 1;
      assert State.RestoredRecords(records, at) == records[last := State.RestoredRecord(records[last], at)];
      AbandonKeepsSized(actions, records, last, State.RESTART_FAILURE, at);
    } else {
      assert State.RestoredRecords(records, at) == records;
    }
  }

  lemma LandedCarriesSignedBlocks(w: World)
    requires Inv(w) && w.attempt.Some? && w.attempt.value.stage.Landed?
    ensures CarriesSignedBlocks(w.room.actions, w.room.checkpoints, |w.attempt.value.carried|)
  {
  }

  /** Preparing writes envelopes, and on refusal fails the attempt's own record; it touches nothing else. */
  lemma PrepareOutcome(w: World, prover: Option<PreparedJournal>, failAt: int)
    requires w.attempt.Some? && w.attempt.value.index < |w.room.checkpoints| && PrepareNext(w, prover, failAt).Some?
    ensures var after, index := PrepareNext(w, prover, failAt).value.room, w.attempt.value.index;
            && after.actions == SignCarried(w.mode, w.room.actions, w.attempt.value.carried).log
            && after.lastCheckpointAt == w.room.lastCheckpointAt
            && (|| after.checkpoints == w.room.checkpoints
                || exists reason: string ::
                     after.checkpoints == w.room.checkpoints[index := State.FailedRecord(w.room.checkpoints[index], reason, failAt)])
  {
    var index := w.attempt.value.index;
    var refused := State.FailedRecord(w.room.checkpoints[index], "signing refused", failAt);
    var unreplayable := State.FailedRecord(w.room.checkpoints[index], "history cannot be replayed", failAt);
    var after := PrepareNext(w, prover, failAt).value.room.checkpoints;
    var astray := State.FailedRecord(w.room.checkpoints[index], "prover did not continue the room", failAt);
    assert after == w.room.checkpoints || after == w.room.checkpoints[index := refused]
           || after == w.room.checkpoints[index := unreplayable] || after == w.room.checkpoints[index := astray];
  }

  lemma AttemptIsLast(w: World)
    requires Inv(w)
    ensures HistoryInv(w.room.checkpoints)
    ensures w.attempt.None? ==> !HasRunning(w.room.checkpoints)
    ensures w.attempt.Some? ==>
              && w.attempt.value.index == |w.room.checkpoints| - 1
              && w.room.checkpoints[w.attempt.value.index].outcome == RUNNING
              && |Carried(w.room.checkpoints)| + |w.attempt.value.carried| <= |w.room.actions|
              && w.room.checkpoints[w.attempt.value.index].actionIds
                 == Ids(Segment(w.room.actions, w.room.checkpoints, |w.attempt.value.carried|))
  {
  }

  lemma PrepareKeepsSized(w: World, prover: Option<PreparedJournal>, failAt: int)
    requires Inv(w) && Sized(w.room.actions, w.room.checkpoints)
    requires w.attempt.Some? && PrepareNext(w, prover, failAt).Some?
    ensures Sized(PrepareNext(w, prover, failAt).value.room.actions, PrepareNext(w, prover, failAt).value.room.checkpoints)
  {
    var room, after, index := w.room, PrepareNext(w, prover, failAt).value.room, w.attempt.value.index;
    AttemptIsLast(w);
    SigningKeepsSized(w);
    PrepareOutcome(w, prover, failAt);
    if after.checkpoints != room.checkpoints {
      var reason: string :|
        after.checkpoints == room.checkpoints[index := State.FailedRecord(room.checkpoints[index], reason, failAt)];
      AbandonKeepsSized(after.actions, room.checkpoints, index, reason, failAt);
    }
  }

  lemma CompleteKeepsSized(w: World, result: CheckpointResult, at: int)
    requires Inv(w) && Sized(w.room.actions, w.room.checkpoints)
    requires w.attempt.Some? && w.attempt.value.stage.Landed?
    ensures w.attempt.value.index < |w.room.checkpoints|
    ensures var done := State.Completed(w.room, w.attempt.value.index, result, at);
            Sized(done.actions, done.checkpoints)
  {
    var room, index := w.room, w.attempt.value.index;
    AttemptIsLast(w);
    LandedCarriesSignedBlocks(w);
    var done := State.Completed(room, index, result, at);
    CompletionKeepsSized(room.actions, room.checkpoints, done.checkpoints[index], |w.attempt.value.carried|);
  }

  lemma RestoreKeepsSized(w: World, at: int)
    requires Inv(w) && Sized(w.room.actions, w.room.checkpoints)
    ensures Sized(State.Restored(w.room, at).actions, State.Restored(w.room, at).checkpoints)
  {
    State.RestoreKeepsCursor(w.room, at);
    MigrationIsIdentity(w.room);
    RestartKeepsSized(w.room.actions, w.room.checkpoints, at);
  }

  lemma MigrationIsIdentity(room: Room)
    requires CursorInv(room)
    ensures State.Migrated(room) == room
  {
  }

  lemma PlainKeepsLog(w: World, step: Step)
    requires Plain(step) && Next(w, step).Some?
    ensures Next(w, step).value.room.actions == w.room.actions
    ensures Next(w, step).value.room.checkpoints == w.room.checkpoints
  {
  }

  lemma StartStepKeepsSized(w: World, step: Step)
    requires Inv(w) && Sized(w.room.actions, w.room.checkpoints) && step.Start? && Next(w, step).Some?
    ensures Sized(Next(w, step).value.room.actions, Next(w, step).value.room.checkpoints)
  {
    AttemptIsLast(w);
    var started := Next(w, step).value.room;
    StartKeepsSized(w.room.actions, w.room.checkpoints, started.checkpoints[|w.room.checkpoints|]);
  }

  lemma FailStepKeepsSized(w: World, step: Step)
    requires Inv(w) && Sized(w.room.actions, w.room.checkpoints) && step.Fail? && Next(w, step).Some?
    ensures Sized(Next(w, step).value.room.actions, Next(w, step).value.room.checkpoints)
  {
    AttemptIsLast(w);
    AbandonKeepsSized(w.room.actions, w.room.checkpoints, w.attempt.value.index, step.reason, step.at);
  }

  lemma NextKeepsSized(w: World, step: Step)
    requires Inv(w) && Sized(w.room.actions, w.room.checkpoints) && Next(w, step).Some?
    requires step.Retract? ==> RetractFits(w.room, step.index)
    ensures Sized(Next(w, step).value.room.actions, Next(w, step).value.room.checkpoints)
  {
    if Plain(step) {
      PlainKeepsLog(w, step);
    } else {
      match step
      case AddMove(id, selectors, preset, input, at) =>
        AddKeepsSized(w, State.BuildDemoAction(w.room.actions, selectors, preset, input, id).value, selectors, preset, input, id);
      case Start(_, _, _, _) => StartStepKeepsSized(w, step);
      case Prepare(prover, failAt) => PrepareKeepsSized(w, prover, failAt);
      case Complete(result, at) => CompleteKeepsSized(w, result, at);
      case Fail(_, _) => FailStepKeepsSized(w, step);
      case Restart(at) => RestoreKeepsSized(w, at);
      case Retract(_, _, _) => RetractKeepsSizedIff(w, step);
    }
  }

  /** Every retraction of the run fits. */
  ghost predicate RetractionsFit(start: World, steps: seq<Step>) {
    forall k :: 0 <= k < |steps| && Run(start, steps[..k]).Some? && steps[k].Retract? ==>
      RetractFits(Run(start, steps[..k]).value.room, steps[k].index)
  }

  lemma RetractionsFitBefore(start: World, steps: seq<Step>)
    requires RetractionsFit(start, steps) && steps != []
    ensures RetractionsFit(start, steps[..|steps| - 1])
  {
    var front := steps[..|steps| - 1];
    forall k | 0 <= k < |front| && Run(start, front[..k]).Some? && front[k].Retract?
      ensures RetractFits(Run(start, front[..k]).value.room, front[k].index)
    {
      assert front[..k] == steps[..k];
    }
  }

  /**
   * In every run whose retractions fit, each block the room replays, and each
   * block of its pending moves, holds at most 32 envelopes, and none it replays
   * is empty.
   */
  lemma {:induction false} ReplayedBlocksAreSized(
    mode: Mode, createdAt: int, deadline: Option<nat>, chain: OnChainRoom, steps: seq<Step>)
    requires chain.batchIndex == 0 && RetractionsFit(Initial(mode, createdAt, deadline, chain), steps)
    requires Run(Initial(mode, createdAt, deadline, chain), steps).Some?
    ensures var w := Run(Initial(mode, createdAt, deadline, chain), steps).value;
            Sized(w.room.actions, w.room.checkpoints)
  {
    if steps != [] {
      var start, front := Initial(mode, createdAt, deadline, chain), steps[..|steps| - 1];
      RetractionsFitBefore(start, steps);
      ReplayedBlocksAreSized(mode, createdAt, deadline, chain, front);
      InitialInv(mode, createdAt, deadline, chain);
      RunKeepsInv(start, front);
      NextKeepsSized(Run(start, front).value, steps[|steps| - 1]);
    }
  }
}
