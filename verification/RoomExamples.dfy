/**
 * Runs from a fresh room to where a guarantee ends: a lost acceptance, a mixed
 * batch, shuffled nonces, a block over its cap, a cursor that no longer fits.
 */
module RoomExamples {
  import opened Wrappers
  import opened RoomModel
  import opened Replay
  import opened FixtureSigning
  import opened RoomRuns
  import opened RoomGuarantees
  import opened RoomProgress
  import opened ReplayNonces
  import Hex = HexText
  import Policy = CheckpointPolicy
  import State = CheckpointState

  const CALL := "0x00000001"
  const GENESIS := OnChainRoom("", "", 0, 0, 0, 0, 0)
  const OPTIONS := SigningOptions(1, "t", Some(0), Some(1))

  /** The shortest envelope a room takes: 32 bytes. */
  function SomeEnvelope(): string {
    "0x" + seq(64, i => '0')
  }

  function Fresh(mode: Mode): World {
    Initial(mode, 0, None, GENESIS)
  }

  function Move(id: ActionId, block: Block, signed: bool): Action {
    Action(id, CALL, None, None, block, if signed then Some(Browser(SomeEnvelope())) else None, None)
  }

  function Add(id: ActionId, block: Block, signed: bool): Step {
    AddMove(id, [CALL], None,
            State.MoveRequest(Some(CALL), Some(if block == One then 1 else 2), if signed then Some(SomeEnvelope()) else None), 0)
  }

  lemma ExampleText()
    ensures Hex.CleanHex(CALL) == Ok(CALL) && |CALL| == 10 && CALL[..10] == CALL
    ensures Hex.CleanHex(SomeEnvelope()) == Ok(SomeEnvelope()) && |SomeEnvelope()| == 66
  {
    assert Hex.Lower(CALL) == CALL;
    var bytes := SomeEnvelope();
    assert forall i :: 2 <= i < |bytes| ==> bytes[i] == '0';
    assert bytes[..2] == "0x";
    assert Hex.Lower(bytes) == bytes;
  }

  /** An open room with space takes the example's move. */
  lemma Adds(w: World, id: ActionId, block: Block, signed: bool)
    requires IsOpen(w.room.phase) && (forall a :: a in w.room.actions ==> a.id != id)
    requires |InBlock(Pending(w.room.actions), block)| < State.ACTIONS_PER_ROOM_BLOCK
    requires w.mode.BrowserSigned? ==> signed
    ensures Next(w, Add(id, block, signed))
            == Some(w.(room := w.room.(actions := w.room.actions + [Move(id, block, signed)], updatedAt := 0)))
  {
    ExampleText();
    assert CALL in [CALL];
  }

  /** The world of a deployed room with one move in each block. */
  function Open(mode: Mode, first: Action, second: Action): World {
    var w := Fresh(mode);
    w.(room := w.room.(phase := ACTIVE, chainRoomId := Some(7), actions := [first, second]))
  }

  lemma BothPending(first: Action, second: Action)
    requires first.stamp.None? && second.stamp.None? && first.block != second.block
    ensures Pending([first]) == [first] && Pending([first, second]) == [first, second]
    ensures InBlock([first], second.block) == []
    ensures InBlock([first, second], first.block) == [first] && InBlock([first, second], second.block) == [second]
  {
    assert [first][1..] == [] && [first, second][1..] == [second] && [second][1..] == [];
    assert Pending([second]) == [second];
    InBlockOne(first);
    InBlockOne(second);
    InBlockHead([first, second], One);
    InBlockHead([first, second], Two);
  }

  /** A deployed room takes one move in each block, in either order. */
  lemma Opens(mode: Mode, first: Action, second: Action, signed: bool, again: bool) returns (steps: seq<Step>)
    requires mode.BrowserSigned? ==> signed && again
    requires first == Move("a", first.block, signed) && second == Move("b", second.block, again) && first.block != second.block
    ensures Run(Fresh(mode), steps) == Some(Open(mode, first, second))
  {
    var deployed := Next(Fresh(mode), Deploy(7)).value;
    var one := deployed.(room := deployed.room.(actions := [first]));
    assert [] + [first] == [first] && [first] + [second] == [first, second];
    BothPending(first, second);
    Adds(deployed, "a", first.block, signed);
    Adds(one, "b", second.block, again);
    RunTwo(Fresh(mode), Deploy(7), deployed, Add("a", first.block, signed), one);
    steps := [Deploy(7), Add("a", first.block, signed)] + [Add("b", second.block, again)];
    RunPush(Fresh(mode), [Deploy(7), Add("a", first.block, signed)], Add("b", second.block, again));
  }

  /** And can then be checkpointed on demand. */
  lemma OpenIsReady(mode: Mode, first: Action, second: Action, steps: seq<Step>)
    requires Run(Fresh(mode), steps) == Some(Open(mode, first, second))
    requires first.stamp.None? && second.stamp.None? && first.block != second.block
    ensures Inv(Open(mode, first, second)) && Pending(Open(mode, first, second).room.actions) == [first, second]
    ensures State.AssertCheckpointable(Open(mode, first, second).room, true, 0) == Ok([first, second])
  {
    InitialInv(mode, 0, None, GENESIS);
    RunKeepsInv(Fresh(mode), steps);
    BothPending(first, second);
  }

  // ----- An acceptance nobody records

  lemma OpenBrowserRoom() returns (steps: seq<Step>, w: World)
    ensures w == Open(BrowserSigned, Move("a", One, true), Move("b", Two, true))
    ensures Run(Fresh(BrowserSigned), steps) == Some(w) && Inv(w)
    ensures State.AssertCheckpointable(w.room, true, 0) == Ok(w.room.actions)
    ensures Pending(w.room.actions) == w.room.actions
  {
    var first, second := Move("a", One, true), Move("b", Two, true);
    w := Open(BrowserSigned, first, second);
    steps := Opens(BrowserSigned, first, second, true, true);
    OpenIsReady(BrowserSigned, first, second, steps);
  }

  /** Its first attempt has posted its request. */
  lemma PrepareBrowserRoom() returns (steps: seq<Step>, w: World)
    ensures Run(Fresh(BrowserSigned), steps) == Some(w) && Inv(w)
    ensures w.mode == BrowserSigned && w.attempt.Some? && w.attempt.value.stage.Prepared?
    ensures w.chain.batchIndex == |w.sent| == 0 && w.finalized == 0
    ensures w.attempt.value.index == 0 && w.attempt.value.carried == ["a", "b"] && w.attempt.value.openPhase == ACTIVE
    ensures |w.room.checkpoints| == 1 && w.room.chainRoomId.Some?
    ensures w.room.actions == [Move("a", One, true), Move("b", Two, true)]
  {
    var open, ready := OpenBrowserRoom();
    var started, prepared := PreparesFrom(ready);
    w := prepared;
    StartedFacts(ready, started, Move("a", One, true), Move("b", Two, true));
    RunThen(Fresh(BrowserSigned), open, ready, [Start(true, 0, 0, 0), Answered(GENESIS)], w);
    steps := open + [Start(true, 0, 0, 0), Answered(GENESIS)];
  }

  /** The batch is included, the attempt fails while it waits for finality, and L1 keeps the block. */
  lemma AcceptanceIsLost() returns (steps: seq<Step>)
    ensures Run(Fresh(BrowserSigned), steps).Some?
    ensures var w := Run(Fresh(BrowserSigned), steps).value;
            w.attempt.None? && Gap(w) == 1 && w.finalized > Settled(w)
  {
    var prepare, prepared := PrepareBrowserRoom();
    AttemptIsLast(prepared);
    InvIsAccounted(prepared);
    var lose, after := AcceptanceCanBeLost(prepared);
    RunThen(Fresh(BrowserSigned), prepare, prepared, lose, after);
    steps := prepare + lose;
  }

  /** The same failure before finality: the chain still shows the batch, and once L1 drops it the room goes on. */
  lemma DroppedBatchIsNotFatal() returns (steps: seq<Step>)
    ensures Run(Fresh(BrowserSigned), steps).Some?
    ensures var w := Run(Fresh(BrowserSigned), steps).value;
            w.attempt.None? && Gap(w) == 1 && w.finalized <= |w.sent| && CanSettle(w)
  {
    var prepare, prepared := PrepareBrowserRoom();
    var fail := [Land("", 0, 0), Fail("", 0)];
    var landed, failed := LandsThenFails(prepared);
    RunThen(Fresh(BrowserSigned), prepare, prepared, fail, failed);
    RunKeepsInv(prepared, fail);
    steps := prepare + fail;
    SettlesAgainIff(failed);
  }

  lemma LandsThenFails(w: World) returns (landed: World, failed: World)
    requires Inv(w) && w.mode == BrowserSigned && w.attempt.Some? && w.attempt.value.stage.Prepared?
    requires w.chain.batchIndex == |w.sent| == 0 && w.finalized == 0
    requires |w.room.checkpoints| == 1 && w.attempt.value.openPhase == ACTIVE && w.room.chainRoomId.Some?
    requires w.room.actions == [Move("a", One, true), Move("b", Two, true)]
    ensures Run(w, [Land("", 0, 0), Fail("", 0)]) == Some(failed)
    ensures failed.attempt.None? && Gap(failed) == 1 && failed.finalized <= |failed.sent| && failed.mode == BrowserSigned
    ensures State.AssertCheckpointable(failed.room, true, 0).Ok?
  {
    AttemptIsLast(w);
    landed := Next(w, Land("", 0, 0)).value;
    failed := Next(landed, Fail("", 0)).value;
    RunTwo(w, Land("", 0, 0), landed, Fail("", 0), failed);
    BothPending(w.room.actions[0], w.room.actions[1]);
  }

  // ----- A block over its cap

  /** Ids no two of which are alike, nor like those of an open room. */
  function Name(n: nat): string {
    seq(n + 2, i => 'm')
  }

  function Moves(n: nat): seq<Action> {
    seq(n, i requires 0 <= i < n => Move(Name(i), One, true))
  }

  lemma MovesGrow(n: nat)
    ensures Moves(n + 1) == Moves(n) + [Move(Name(n), One, true)]
    ensures forall a :: a in Moves(n) ==> |a.id| < n + 2
    ensures InBlock(Moves(n + 1), One) == InBlock(Moves(n), One) + [Move(Name(n), One, true)]
  {
    assert Moves(n + 1) == Moves(n) + [Move(Name(n), One, true)];
    InBlockConcat(Moves(n), [Move(Name(n), One, true)], One);
    InBlockOne(Move(Name(n), One, true));
  }

  function Filled(w: World, n: nat): World {
    if n == 0 then w else w.(room := w.room.(actions := w.room.actions + Moves(n), updatedAt := 0))
  }

  lemma FillsOneMore(w: World, n: nat)
    requires n < State.ACTIONS_PER_ROOM_BLOCK && IsOpen(w.room.phase)
    requires (forall a :: a in w.room.actions ==> |a.id| == 1)
    requires Pending(Filled(w, n).room.actions) == Moves(n) && |InBlock(Moves(n), One)| == n
    ensures Next(Filled(w, n), Add(Name(n), One, true)) == Some(Filled(w, n + 1))
    ensures Pending(Filled(w, n + 1).room.actions) == Moves(n + 1) && |InBlock(Moves(n + 1), One)| == n + 1
  {
    var before, action := Filled(w, n), Move(Name(n), One, true);
    assert before.room.actions == w.room.actions + Moves(n);
    MovesGrow(n);
    Adds(before, action.id, One, true);
    assert w.room.actions + Moves(n + 1) == w.room.actions + Moves(n) + [action];
    PendingPush(before.room.actions, action);
  }

  /** A settled room takes up to 32 more moves into one block. */
  lemma {:induction false} Fills(w: World, n: nat) returns (steps: seq<Step>)
    requires n <= State.ACTIONS_PER_ROOM_BLOCK && IsOpen(w.room.phase)
    requires Pending(w.room.actions) == [] && forall a :: a in w.room.actions ==> |a.id| == 1
    ensures Run(w, steps) == Some(Filled(w, n))
    ensures Pending(Filled(w, n).room.actions) == Moves(n) && |InBlock(Moves(n), One)| == n
  {
    if n == 0 {
      steps := [];
    } else {
      var front := Fills(w, n - 1);
      FillsOneMore(w, n - 1);
      RunThenOne(w, front, Filled(w, n - 1), Add(Name(n - 1), One, true), Filled(w, n));
      steps := front + [Add(Name(n - 1), One, true)];
    }
  }

  lemma {:induction false} PendingPush(actions: seq<Action>, action: Action)
    requires action.stamp.None?
    ensures Pending(actions + [action]) == Pending(actions) + [action]
  {
    if actions == [] {
      assert [] + [action] == [action] && [action][1..] == [];
    } else {
      PendingPush(actions[1..], action);
      assert (actions + [action])[1..] == actions[1..] + [action];
    }
  }

  /** One batch settled, with a move in each block. */
  lemma SettlesOnce() returns (steps: seq<Step>, w: World)
    ensures Run(Fresh(BrowserSigned), steps) == Some(w) && Inv(w)
    ensures w.attempt.None? && w.room.phase == L1_FINALIZED && w.chain.batchIndex == |w.sent| == 1
    ensures |w.room.checkpoints| == 1 && w.room.checkpoints[0].outcome == ACCEPTED
    ensures w.room.checkpoints[0].actionIds == ["a", "b"]
    ensures w.room.actions == [Move("a", One, true).(stamp := Some(1)), Move("b", Two, true).(stamp := Some(1))]
  {
    var prepare, prepared := PrepareBrowserRoom();
    AttemptIsLast(prepared);
    InvIsAccounted(prepared);
    var land, settled := LandsNow(prepared);
    w := settled;
    RunKeepsInv(prepared, land);
    RunThen(Fresh(BrowserSigned), prepare, prepared, land, w);
    steps := prepare + land;
    StampedBoth(prepared.room.actions, prepared.room.checkpoints[0].actionIds);
  }

  lemma StampedBoth(actions: seq<Action>, ids: seq<ActionId>)
    requires actions == [Move("a", One, true), Move("b", Two, true)] && ids == ["a", "b"]
    ensures State.Stamped(actions, State.IdSet(ids), 1)
            == [Move("a", One, true).(stamp := Some(1)), Move("b", Two, true).(stamp := Some(1))]
  {
    assert ids[0] in ids && ids[1] in ids;
  }

  /** Nothing of the settled batch waits, and one move of it went into block one. */
  lemma SettledPair(actions: seq<Action>)
    requires actions == [Move("a", One, true).(stamp := Some(1)), Move("b", Two, true).(stamp := Some(1))]
    ensures Pending(actions) == [] && |InBlock(actions, One)| == 1
  {
    assert actions[1..] == [actions[1]] && [actions[1]][1..] == [];
    assert Pending([actions[1]]) == [];
    InBlockHead(actions, One);
    InBlockOne(actions[1]);
  }

  lemma ReopensPair(room: Room, actions: seq<Action>)
    requires |room.checkpoints| == 1 && |room.checkpoints[0].actionIds| == 2
    requires |actions| == 2 && actions <= room.actions
    ensures State.Reopened(room, 0) == actions
  {
    assert room.checkpoints[..0] == [];
  }

  lemma OnlyBatchIsRetracted(w: World)
    requires w.attempt.None? && w.chain.batchIndex == |w.sent| == 1
    requires |w.room.checkpoints| == 1 && w.room.checkpoints[0].outcome == ACCEPTED
    ensures State.IsNewestAccepted(w.room.checkpoints, 0) && Next(w, Retract(0, "", 0)).Some?
    ensures Next(w, Retract(0, "", 0)).value.room == State.RolledBack(w.room, 0, "", 0)
  {
  }

  lemma IdleRoom(w: World)
    requires Inv(w) && w.attempt.None?
    ensures CursorInv(w.room) && !HasRunning(w.room.checkpoints)
  {
  }

  /** A settled room with its next block one filled. */
  lemma FillsAfterSettling(n: nat) returns (steps: seq<Step>, w: World)
    requires n <= State.ACTIONS_PER_ROOM_BLOCK
    ensures Run(Fresh(BrowserSigned), steps) == Some(w) && Inv(w)
    ensures w.attempt.None? && w.chain.batchIndex == |w.sent| == 1
    ensures |w.room.checkpoints| == 1 && w.room.checkpoints[0].outcome == ACCEPTED
    ensures |InBlock(State.Reopened(w.room, 0), One)| == 1 && |InBlock(Pending(w.room.actions), One)| == n
  {
    var settle, settled := SettlesOnce();
    SettledPair(settled.room.actions);
    var fill := Fills(settled, n);
    w := Filled(settled, n);
    RunKeepsInv(settled, fill);
    RunThen(Fresh(BrowserSigned), settle, settled, fill, w);
    ReopensPair(w.room, settled.room.actions);
    steps := settle + fill;
  }

  /** A full block waits when the settled batch is retracted: the block then holds 33. */
  lemma RetractionOverfills() returns (steps: seq<Step>, w: World)
    ensures Run(Fresh(BrowserSigned), steps) == Some(w)
    ensures |InBlock(Pending(w.room.actions), One)| == State.ACTIONS_PER_ROOM_BLOCK + 1
  {
    var fill, full := FillsAfterSettling(State.ACTIONS_PER_ROOM_BLOCK);
    OnlyBatchIsRetracted(full);
    IdleRoom(full);
    State.RollbackReopens(full.room, 0, "", 0, One);
    w := Next(full, Retract(0, "", 0)).value;
    RunPush(Fresh(BrowserSigned), fill, Retract(0, "", 0));
    steps := fill + [Retract(0, "", 0)];
  }

  // ----- Retracting an older batch

  function Batch(sequence: nat, ids: seq<ActionId>): Record {
    Record(sequence, Policy.MANUAL, ids, 0, Some(0), ACCEPTED, Some(SOME_RESULT), None)
  }

  /** Two settled batches. */
  function TwiceSettled(): Room {
    Room(L1_FINALIZED, 0, 0, Some(7),
         [Move("a", One, true).(stamp := Some(1)), Move("b", Two, true).(stamp := Some(1)),
          Move("c", One, true).(stamp := Some(2)), Move("d", Two, true).(stamp := Some(2))],
         Some(SOME_RESULT), [Batch(1, ["a", "b"]), Batch(2, ["c", "d"])], None, Some(0))
  }

  lemma BothCarried()
    ensures Carried(TwiceSettled().checkpoints) == [("a", 1), ("b", 1), ("c", 2), ("d", 2)]
  {
    var first, second := Batch(1, ["a", "b"]), Batch(2, ["c", "d"]);
    assert [first] == [] + [first] && [first, second] == [first] + [second];
    CarriedAppend([], first);
    CarriedAppend([first], second);
    assert Carriage(first) == [("a", 1), ("b", 1)] && Carriage(second) == [("c", 2), ("d", 2)];
  }

  lemma TwiceSettledIsConsistent()
    ensures CursorInv(TwiceSettled()) && !HasRunning(TwiceSettled().checkpoints)
  {
    BothCarried();
    assert StampedPrefix(TwiceSettled().actions, [("a", 1), ("b", 1), ("c", 2), ("d", 2)]);
    assert DistinctIds(TwiceSettled().actions);
  }

  /** Retracting the first of two batches leaves its moves pending below stamped ones: the cursor is gone. */
  lemma OlderRetractionBreaksCursor()
    ensures CursorInv(TwiceSettled()) && TwiceSettled().checkpoints[0].outcome == ACCEPTED
    ensures !CursorInv(State.RolledBack(TwiceSettled(), 0, "", 0))
  {
    TwiceSettledIsConsistent();
    State.RollbackKeepsCursorIff(TwiceSettled(), 0, "", 0);
    assert !State.IsNewestAccepted(TwiceSettled().checkpoints, 0);
  }

  // ----- A shop batch signed by two hands

  /** One move signed by its client, one left to the fixture: nothing has failed and nothing will be proved. */
  lemma ShopRoomWedges() returns (steps: seq<Step>)
    ensures Run(Fresh(ShopSigned(OPTIONS)), steps).Some?
    ensures var w := Run(Fresh(ShopSigned(OPTIONS)), steps).value;
            && w.room.checkpoints == [] && State.AssertCheckpointable(w.room, true, 0).Ok?
            && Mixed(Pending(w.room.actions)) && Wedged(w) && !CanSettle(w)
            && forall a :: a in w.room.actions ==> Signable(a, OPTIONS)
  {
    var mode, first, second := ShopSigned(OPTIONS), Move("a", One, true), Move("b", Two, false);
    steps := Opens(mode, first, second, true, false);
    OpenIsReady(mode, first, second, steps);
    MixedPairWedges(Open(mode, first, second), first, second);
  }

  lemma MixedPairWedges(w: World, first: Action, second: Action)
    requires Inv(w) && w.mode == ShopSigned(OPTIONS) && w.attempt.None? && Pending(w.room.actions) == [first, second]
    requires first.signed.Some? && second.signed.None? && State.AssertCheckpointable(w.room, true, 0).Ok?
    ensures Mixed(Pending(w.room.actions)) && Wedged(w) && !CanSettle(w)
  {
    assert first in [first, second] && second in [first, second];
    SettlesAgainIff(w);
  }

  // ----- Nonces out of order

  /** Two moves of one fixture, the later one in the earlier block. */
  predicate Shuffled(actions: seq<Action>) {
    && |actions| == 2 && actions[0].block == Two && actions[1].block == One
    && By(actions[0], 0) && By(actions[1], 0)
  }

  lemma ShuffledShow(w: World)
    requires Inv(w) && w.mode == FixtureSigned(OPTIONS) && w.attempt.Some? && w.attempt.value.stage != Queued
    requires Shuffled(w.room.actions) && Carried(w.room.checkpoints) == [] && |w.attempt.value.carried| == 2
    ensures Replayed(w) == 2 && !ShowsNoncesInOrder(w, 0)
  {
    var segment := Segment(w.room.actions, w.room.checkpoints, 2);
    assert segment == w.room.actions == w.room.actions[..Replayed(w)];
    assert segment[1] in segment[1..];
    assert !BlockOrdered(segment, 0);
    var batches := Batches(w);
    assert batches[|batches| - 1] == segment;
    BatchesOrderIff(w, 0);
  }

  lemma ShuffledSign(first: Action, second: Action)
    requires first == Move("a", Two, false) && second == Move("b", One, false)
    ensures var log := SignAll([first, second], OPTIONS, ["a", "b"]).log;
            Shuffled(log)
  {
    var log := [first, second];
    assert first.id != second.id;
    assert Ids(log) == ["a", "b"];
    SigningRefusedIff(log, OPTIONS, log);
    SignAllIsPointwise(log, OPTIONS, ["a", "b"]);
  }

  /** A fixture plays into block two before block one; its first batch shows nonce 1 before nonce 0. */
  lemma NoncesComeOutShuffled() returns (steps: seq<Step>, w: World)
    ensures Run(Fresh(FixtureSigned(OPTIONS)), steps) == Some(w)
    ensures w.mode == FixtureSigned(OPTIONS) && w.attempt.Some? && w.attempt.value.stage != Queued
    ensures Replayed(w) <= |w.room.actions| && !ShowsNoncesInOrder(w, 0)
  {
    var mode, first, second := FixtureSigned(OPTIONS), Move("a", Two, false), Move("b", One, false);
    var open := Opens(mode, first, second, false, false);
    OpenIsReady(mode, first, second, open);
    var ready := Open(mode, first, second);
    assert forall a :: a in [first, second] ==> Signable(a, OPTIONS);
    var started, prepared := PreparesFrom(ready);
    w := prepared;
    RunThen(Fresh(mode), open, ready, [Start(true, 0, 0, 0), Answered(GENESIS)], w);
    steps := open + [Start(true, 0, 0, 0), Answered(GENESIS)];
    StartedFacts(ready, started, first, second);
    ShuffledSign(first, second);
    ShuffledShow(w);
  }

  /** A client's move, then one its fixture signed: block one before block two. */
  predicate Skipping(actions: seq<Action>) {
    && |actions| == 2 && actions[0].block == One && actions[1].block == Two
    && FromClient(actions[0]) && By(actions[1], 0) && actions[1].signed.value.tx.nonce == 1
  }

  lemma SkippingBatch(batch: seq<Action>)
    requires Skipping(batch)
    ensures BatchNonces(batch, 0) == [1] && BlockOrdered(batch, 0)
  {
    assert batch[1..] == [batch[1]] && [batch[1]][1..] == [];
    InBlockHead(batch, One);
    InBlockHead(batch, Two);
    InBlockOne(batch[1]);
    assert batch[..1] == [batch[0]] && [batch[0]][1..] == [];
    assert InBlock(batch, One) == [batch[0]] && InBlock(batch, Two) == [batch[1]];
    assert Nonces([batch[0]], 0) == [] && Nonces([batch[1]], 0) == [1];
    assert BlockOrdered([batch[1]], 0);
  }

  lemma OnlyBatch(w: World)
    requires Inv(w) && w.attempt.Some? && |w.room.checkpoints| == 1 && w.room.checkpoints[0].outcome == RUNNING
    requires |w.attempt.value.carried| == |w.room.actions|
    ensures Batches(w) == [w.room.actions]
  {
    assert w.room.checkpoints[..0] == [];
    assert Carried(w.room.checkpoints) == [];
    assert AcceptedSegments(w.room.actions, w.room.checkpoints) == [];
    assert Segment(w.room.actions, w.room.checkpoints, |w.room.actions|) == w.room.actions;
  }

  lemma SkippingSign(first: Action, second: Action)
    requires first == Move("a", One, true) && second == Move("b", Two, false)
    ensures Skipping(SignAll([first, second], OPTIONS, ["a", "b"]).log)
  {
    var log := [first, second];
    assert first.id != second.id;
    assert Ids(log) == ["a", "b"];
    SigningRefusedIff(log, OPTIONS, log);
    SignAllIsPointwise(log, OPTIONS, ["a", "b"]);
    assert log[..1] == [first] && [first][..0] == [];
    assert Rank([first], OPTIONS, 0) == 1;
  }

  /**
   * A client signs the move counted as its fixture's first: the batch keeps its
   * blocks in order, and the fixture's nonces begin at one.
   */
  lemma NoncesSkipClients() returns (steps: seq<Step>, w: World)
    ensures Run(Fresh(FixtureSigned(OPTIONS)), steps) == Some(w) && Inv(w)
    ensures w.attempt.Some? && w.attempt.value.stage != Queued && AllOrdered(Batches(w), 0)
    ensures ShownNonces(w.attempt.value.stage.request.rawTransactions, 0) == [1]
  {
    var mode, first, second := FixtureSigned(OPTIONS), Move("a", One, true), Move("b", Two, false);
    var open := Opens(mode, first, second, true, false);
    OpenIsReady(mode, first, second, open);
    var ready := Open(mode, first, second);
    assert forall a :: a in [first, second] ==> Signable(a, OPTIONS);
    var started, prepared := PreparesFrom(ready);
    w := prepared;
    RunThen(Fresh(mode), open, ready, [Start(true, 0, 0, 0), Answered(GENESIS)], w);
    steps := open + [Start(true, 0, 0, 0), Answered(GENESIS)];
    StartedFacts(ready, started, first, second);
    SkippingSign(first, second);
    SkippingShow(w);
  }

  lemma SkippingShow(w: World)
    requires Inv(w) && w.attempt.Some? && w.attempt.value.stage != Queued && Skipping(w.room.actions)
    requires |w.room.checkpoints| == 1 && w.room.checkpoints[0].outcome == RUNNING && |w.attempt.value.carried| == 2
    ensures AllOrdered(Batches(w), 0) && ShownNonces(w.attempt.value.stage.request.rawTransactions, 0) == [1]
  {
    OnlyBatch(w);
    SkippingBatch(w.room.actions);
    RequestShowsBatches(w, 0);
    ConcatAppend([], w.room.actions, 0);
    assert [] + [w.room.actions] == [w.room.actions] && [] + [1] == [1];
  }

  /** The first attempt of an open room. */
  lemma StartedFacts(w: World, started: World, first: Action, second: Action)
    requires w == Open(w.mode, first, second) && Next(w, Start(true, 0, 0, 0)) == Some(started)
    requires State.AssertCheckpointable(w.room, true, 0) == Ok([first, second])
    ensures started.mode == w.mode && started.room.actions == [first, second]
    ensures started.attempt == Some(Attempt(0, [first.id, second.id], ACTIVE, Queued))
    ensures |started.room.checkpoints| == 1 && started.room.checkpoints[0].outcome == RUNNING
    ensures Carried(started.room.checkpoints) == []
  {
    assert Ids([first, second]) == [first.id, second.id];
    assert started.room.checkpoints[..0] == [];
  }
}
