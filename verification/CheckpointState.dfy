/**
 * The stored room and its attempts: taking in a move, starting, completing,
 * failing and retracting an attempt, and what a restart repairs.
 *
 * Each in-place operation of `DemoRoom` is specified by a function on room
 * values; the lemmas say what those functions keep.
 */
module CheckpointState {
  import opened Wrappers
  import opened RoomModel
  import Hex = HexText
  import Policy = CheckpointPolicy

  const ACTIONS_PER_ROOM_BLOCK: nat := 32
  const MINIMUM_ENVELOPE_BYTES: nat := 32

  // ----- Admitting one move

  datatype PresetAction = PresetAction(calldata: string, recommendedBlock: int, fixtureSigner: Option<nat>, gasLimit: Option<int>)

  datatype MoveRequest = MoveRequest(calldata: Option<string>, block: Option<int>, signedTransaction: Option<string>)

  datatype Refusal =
    | MalformedCalldata | SelectorNotPermitted | MalformedEnvelope | ShortEnvelope
    | BadBlock | BlockFull | NotReady | AlreadyRunning | EmptyBlock | NotDue

  /** Admission of one move: every rule it must meet, in order, and the action it then becomes. */
  function BuildDemoAction(
    actions: seq<Action>, selectors: seq<string>, preset: Option<PresetAction>, input: MoveRequest, id: ActionId)
    : (r: Result<Action, Refusal>)
    ensures r.Ok? ==> r.value.id == id && r.value.stamp.None?
    ensures r.Ok? ==> |InBlock(Pending(actions), r.value.block)| < ACTIONS_PER_ROOM_BLOCK
    ensures r.Ok? ==> (r.value.signed.Some? <==> input.signedTransaction.Some?)
    ensures r.Ok? && r.value.signed.Some? ==>
              && r.value.signed.value.Browser? && |r.value.signed.value.bytes| >= 2 + MINIMUM_ENVELOPE_BYTES * 2
              && Hex.CleanHex(input.signedTransaction.value) == Ok(r.value.signed.value.bytes)
    ensures r.Ok? ==> |r.value.calldata| >= 10 && r.value.calldata[..10] in selectors
    ensures r.Ok? ==> input.calldata.Some? || preset.Some?
    ensures r.Ok? ==>
              Hex.CleanHex(if input.calldata.Some? then input.calldata.value else preset.value.calldata) == Ok(r.value.calldata)
    ensures r.Ok? && input.block.Some? ==> input.block == Some(if r.value.block == One then 1 else 2)
  {
    var text := if input.calldata.Some? then input.calldata else if preset.Some? then Some(preset.value.calldata) else None;
    if text.None? || Hex.CleanHex(text.value).Err? then Err(MalformedCalldata)
    else
      var calldata := Hex.CleanHex(text.value).value;
      if |calldata| < 10 || calldata[..10] !in selectors then Err(SelectorNotPermitted)
      else if input.signedTransaction.Some? && Hex.CleanHex(input.signedTransaction.value).Err? then Err(MalformedEnvelope)
      else
        var signed :=
          if input.signedTransaction.Some?
          then Some(Browser(Hex.CleanHex(input.signedTransaction.value).value)) else None;
        if signed.Some? && |signed.value.bytes| < 2 + MINIMUM_ENVELOPE_BYTES * 2 then Err(ShortEnvelope)
        else
          var pending := Pending(actions);
          var block :=
            if input.block.Some? then input.block.value
            else if preset.Some? then preset.value.recommendedBlock
            else if |pending| == 0 then 1 else 2;
          if block != 1 && block != 2 then Err(BadBlock)
          else
            var half := if block == 1 then One else Two;
            if |InBlock(pending, half)| >= ACTIONS_PER_ROOM_BLOCK then Err(BlockFull)
            else
              Ok(Action(id, calldata,
                        if preset.Some? then preset.value.fixtureSigner else None,
                        if preset.Some? then preset.value.gasLimit else None,
                        half, signed, None))
  }

  // ----- The plan of a stored room

  function SecondsSinceLastCheckpoint(room: Room, at: int): (seconds: real)
    ensures seconds >= 0.0
  {
    var reference := if room.lastCheckpointAt.Some? then room.lastCheckpointAt.value else room.createdAt;
    var elapsed := (at - reference) as real / 1000.0;
    if elapsed > 0.0 then elapsed else 0.0
  }

  function PlanInput(room: Room, at: int, currentBlock: Option<int>): Policy.PolicyInput {
    var pending := Pending(room.actions);
    Policy.PolicyInput(
      |InBlock(pending, One)|, |InBlock(pending, Two)|,
      SecondsSinceLastCheckpoint(room, at),
      room.checkpoints != [],
      currentBlock,
      if room.proofDeadlineBlock.None? then None else Some(room.proofDeadlineBlock.value as int),
      None)
  }

  function CheckpointPlan(room: Room, at: int, currentBlock: Option<int>): Policy.Plan {
    Policy.PlanCheckpoint(PlanInput(room, at, currentBlock))
  }

  /** The moves an attempt must carry, or why none may start. */
  function AssertCheckpointable(room: Room, force: bool, at: int): (r: Result<seq<Action>, Refusal>)
    ensures r.Ok? ==> r.value == Pending(room.actions) && IsOpen(room.phase) && !HasRunning(room.checkpoints)
    ensures r.Ok? ==> InBlock(r.value, One) != [] && InBlock(r.value, Two) != []
    ensures r.Ok? ==> room.chainRoomId.Some? && (force || CheckpointPlan(room, at, None).decision == Policy.DUE)
    ensures r == Err(NotDue) ==> !force
  {
    if !IsOpen(room.phase) || room.chainRoomId.None? then Err(NotReady)
    else if HasRunning(room.checkpoints) then Err(AlreadyRunning)
    else
      var pending := Pending(room.actions);
      if InBlock(pending, One) == [] || InBlock(pending, Two) == [] then Err(EmptyBlock)
      else if !force && CheckpointPlan(room, at, None).decision != Policy.DUE then Err(NotDue)
      else Ok(pending)
  }

  /** What the controller records as the reason for an attempt; the clock is read a second time. */
  function TriggerOf(room: Room, force: bool, at: int): Policy.Trigger {
    if force then Policy.MANUAL
    else
      var trigger := CheckpointPlan(room, at, None).trigger;
      if trigger.Some? then trigger.value else Policy.MANUAL
  }

  // ----- Exactly what is let in

  /** Clean bytes of at least this many characters. */
  predicate CleanText(text: Option<string>, least: nat) {
    text.Some? && Hex.CleanHex(text.value).Ok? && |text.value| >= least
  }

  /** How many unproved moves stand in a block. */
  function WaitingIn(actions: seq<Action>, block: Block): set<nat> {
    set i: nat | i < |actions| && actions[i].stamp.None? && actions[i].block == block
  }

  lemma {:induction false} PendingOfConcat(a: seq<Action>, b: seq<Action>)
    ensures Pending(a + b) == Pending(a) + Pending(b)
  {
    if a == [] {
      assert a + b == b;
    } else {
      var head := if a[0].stamp.None? then [a[0]] else [];
      PendingOfConcat(a[1..], b);
      assert (a + b)[0] == a[0] && (a + b)[1..] == a[1..] + b;
      assert head + (Pending(a[1..]) + Pending(b)) == (head + Pending(a[1..])) + Pending(b);
    }
  }

  lemma CountedOneMore(front: seq<Action>, last: Action, block: Block)
    ensures |InBlock(Pending(front + [last]), block)|
            == |InBlock(Pending(front), block)| + if last.stamp.None? && last.block == block then 1 else 0
  {
    PendingOfConcat(front, [last]);
    assert [last][1..] == [];
    var one := Pending([last]);
    assert one == if last.stamp.None? then [last] else [];
    InBlockConcat(Pending(front), one, block);
  }

  lemma WaitingOneMore(front: seq<Action>, last: Action, block: Block)
    ensures |WaitingIn(front + [last], block)|
            == |WaitingIn(front, block)| + if last.stamp.None? && last.block == block then 1 else 0
  {
    var all := front + [last];
    if last.stamp.None? && last.block == block {
      assert WaitingIn(all, block) == WaitingIn(front, block) + {|front|};
    } else {
      assert WaitingIn(all, block) == WaitingIn(front, block);
    }
  }

  lemma {:induction false} WaitingIsCounted(actions: seq<Action>, block: Block)
    ensures |InBlock(Pending(actions), block)| == |WaitingIn(actions, block)|
  {
    if actions == [] {
      assert WaitingIn(actions, block) == {};
    } else {
      var front, last := actions[..|actions| - 1], actions[|actions| - 1];
      assert actions == front + [last];
      WaitingIsCounted(front, block);
      CountedOneMore(front, last, block);
      WaitingOneMore(front, last, block);
    }
  }

  /** The block a move goes to: the caller's, else the preset's, else one for the first pending move and two after it. */
  function BlockWanted(actions: seq<Action>, preset: Option<PresetAction>, input: MoveRequest): int {
    if input.block.Some? then input.block.value
    else if preset.Some? then preset.value.recommendedBlock
    else if exists a :: a in actions && a.stamp.None? then 2 else 1
  }

  lemma {:induction false} SomethingPends(actions: seq<Action>)
    ensures |Pending(actions)| > 0 <==> exists a :: a in actions && a.stamp.None?
  {
    if actions != [] {
      SomethingPends(actions[1..]);
      assert forall a :: a in actions <==> a == actions[0] || a in actions[1..];
    }
  }

  /** A move is taken exactly when its call is permitted, its envelope well formed and its block has room, and as asked. */
  lemma BuildsIff(
      actions: seq<Action>, selectors: seq<string>, preset: Option<PresetAction>, input: MoveRequest, id: ActionId)
    ensures var text := if input.calldata.None? && preset.Some? then Some(preset.value.calldata) else input.calldata;
            var wanted := BlockWanted(actions, preset, input);
            var r := BuildDemoAction(actions, selectors, preset, input, id);
            && (r.Ok? <==>
                  && CleanText(text, 10) && Hex.Lower(text.value)[..10] in selectors
                  && (input.signedTransaction.Some? ==> CleanText(input.signedTransaction, 66))
                  && (wanted == 1 || wanted == 2)
                  && |WaitingIn(actions, if wanted == 1 then One else Two)| < 32)
            && (r.Ok? ==>
                  r.value == Action(id, Hex.Lower(text.value),
                                    if preset.Some? then preset.value.fixtureSigner else None,
                                    if preset.Some? then preset.value.gasLimit else None,
                                    if wanted == 1 then One else Two,
                                    if input.signedTransaction.Some? then Some(Browser(Hex.Lower(input.signedTransaction.value))) else None,
                                    None))
  {
    WaitingIsCounted(actions, One);
    WaitingIsCounted(actions, Two);
    SomethingPends(actions);
  }

  /** An attempt may start exactly when the room is open and deployed, idle, holds a move in each block, and is due or forced. */
  lemma CheckpointableIff(room: Room, force: bool, at: int)
    ensures AssertCheckpointable(room, force, at).Ok?
            <==> && (room.phase == ACTIVE || room.phase == L1_FINALIZED) && room.chainRoomId.Some?
                 && (forall r :: r in room.checkpoints ==> r.outcome != RUNNING)
                 && |WaitingIn(room.actions, One)| > 0 && |WaitingIn(room.actions, Two)| > 0
                 && (force || CheckpointPlan(room, at, None).decision == Policy.DUE)
  {
    WaitingIsCounted(room.actions, One);
    WaitingIsCounted(room.actions, Two);
  }

  /** What the plan is made from: the waiting moves of each block, the milliseconds since the last attempt and the deadline. */
  lemma PlanSeesTheRoom(room: Room, at: int, currentBlock: Option<int>)
    ensures var input := PlanInput(room, at, currentBlock);
            var since := at - (if room.lastCheckpointAt.Some? then room.lastCheckpointAt.value else room.createdAt);
            && input.pendingInBlock1 == |WaitingIn(room.actions, One)|
            && input.pendingInBlock2 == |WaitingIn(room.actions, Two)|
            && input.secondsSinceLastCheckpoint * 1000.0 == (if since > 0 then since else 0) as real
            && (input.hasCheckpointed <==> |room.checkpoints| > 0)
            && input.currentBlock == currentBlock && input.budgetBlocks == None
            && (input.deadlineBlock.Some? <==> room.proofDeadlineBlock.Some?)
            && (input.deadlineBlock.Some? ==> input.deadlineBlock.value == room.proofDeadlineBlock.value)
  {
    WaitingIsCounted(room.actions, One);
    WaitingIsCounted(room.actions, Two);
  }

  // ----- Attempts, as functions on room values

  function Started(room: Room, carried: seq<Action>, trigger: Policy.Trigger, at: int): Room {
    var record := Record(|room.checkpoints| + 1, trigger, Ids(carried), at, None, RUNNING, None, None);
    room.(checkpoints := room.checkpoints + [record], lastCheckpointAt := Some(at))
  }

  function StampIf(action: Action, proved: set<ActionId>, sequence: nat): Action {
    if action.id in proved then action.(stamp := Some(sequence)) else action
  }

  function Stamped(actions: seq<Action>, proved: set<ActionId>, sequence: nat): (r: seq<Action>)
    ensures |r| == |actions|
    ensures forall i :: 0 <= i < |r| ==> r[i] == StampIf(actions[i], proved, sequence)
  {
    seq(|actions|, i requires 0 <= i < |actions| => StampIf(actions[i], proved, sequence))
  }

  function IdSet(ids: seq<ActionId>): set<ActionId> {
    set id | id in ids
  }

  function Completed(room: Room, index: nat, result: CheckpointResult, at: int): Room
    requires index < |room.checkpoints|
  {
    var record := room.checkpoints[index].(result := Some(result), outcome := ACCEPTED, finishedAt := Some(at));
    room.(checkpoints := room.checkpoints[index := record],
          actions := Stamped(room.actions, IdSet(record.actionIds), record.sequence),
          checkpoint := Some(result))
  }

  function FailedRecord(record: Record, failure: string, at: int): Record {
    record.(outcome := FAILED, failure := Some(failure), finishedAt := Some(at))
  }

  function Failed(room: Room, index: nat, failure: string, at: int): Room
    requires index < |room.checkpoints|
  {
    room.(checkpoints := room.checkpoints[index := FailedRecord(room.checkpoints[index], failure, at)])
  }

  function UnstampIf(action: Action, sequence: nat): Action {
    if action.stamp == Some(sequence) then action.(stamp := None) else action
  }

  function Unstamped(actions: seq<Action>, sequence: nat): (r: seq<Action>)
    ensures |r| == |actions|
    ensures forall i :: 0 <= i < |r| ==> r[i] == UnstampIf(actions[i], sequence)
  {
    seq(|actions|, i requires 0 <= i < |actions| => UnstampIf(actions[i], sequence))
  }

  /** The accepted record with a result that sorts first by descending sequence. */
  function NewestAccepted(records: seq<Record>): (r: Option<Record>)
    ensures r.Some? ==> r.value in records && r.value.outcome == ACCEPTED && r.value.result.Some?
  {
    if records == [] then None
    else
      var rest := NewestAccepted(records[1..]);
      if records[0].outcome == ACCEPTED && records[0].result.Some?
         && (rest.None? || rest.value.sequence <= records[0].sequence)
      then Some(records[0]) else rest
  }

  function RolledBack(room: Room, index: nat, failure: string, at: int): Room
    requires index < |room.checkpoints|
  {
    var records := room.checkpoints[index := FailedRecord(room.checkpoints[index], failure, at)];
    var previous := NewestAccepted(records);
    room.(actions := Unstamped(room.actions, room.checkpoints[index].sequence),
          checkpoints := records,
          checkpoint := if previous.Some? then previous.value.result else None,
          phase := ACTIVE,
          updatedAt := at)
  }

  const RESTART_FAILURE := "The controller restarted while this checkpoint was proving."

  function RestoredRecord(record: Record, at: int): Record {
    if record.outcome == RUNNING then FailedRecord(record, RESTART_FAILURE, at) else record
  }

  /** A room persisted before histories existed replays its one checkpoint as sequence 1. */
  function Migrated(room: Room): Room {
    if room.checkpoint.Some? && room.checkpoints == [] then
      var record := Record(1, Policy.MANUAL, Ids(room.actions), room.updatedAt, Some(room.updatedAt),
                           ACCEPTED, room.checkpoint, None);
      room.(checkpoints := [record],
            actions := seq(|room.actions|, i requires 0 <= i < |room.actions| => room.actions[i].(stamp := Some(1))))
    else room
  }

  function RestoredRecords(records: seq<Record>, at: int): (r: seq<Record>)
    ensures |r| == |records| && forall i :: 0 <= i < |r| ==> r[i] == RestoredRecord(records[i], at)
  {
    seq(|records|, i requires 0 <= i < |records| => RestoredRecord(records[i], at))
  }

  function Restored(room: Room, at: int): Room {
    var migrated := Migrated(room);
    migrated.(checkpoints := RestoredRecords(migrated.checkpoints, at))
  }

  // ----- The room the controller mutates

  class DemoRoom {
    var phase: Phase
    const createdAt: int
    var updatedAt: int
    var chainRoomId: Option<nat>
    var actions: seq<Action>
    var checkpoint: Option<CheckpointResult>
    var checkpoints: seq<Record>
    const proofDeadlineBlock: Option<nat>
    var lastCheckpointAt: Option<int>

    ghost function View(): Room
      reads this
    {
      Room(phase, createdAt, updatedAt, chainRoomId, actions, checkpoint, checkpoints, proofDeadlineBlock, lastCheckpointAt)
    }

    constructor (at: int, deadline: Option<nat>)
      ensures View() == Room(ROOM_READY, at, at, None, [], None, [], deadline, None)
      ensures CursorInv(View())
    {
      phase, createdAt, updatedAt, chainRoomId := ROOM_READY, at, at, None;
      actions, checkpoint, checkpoints, proofDeadlineBlock, lastCheckpointAt := [], None, [], deadline, None;
    }

    method AddAction(action: Action, at: int)
      modifies this`actions, this`updatedAt
      ensures View() == old(View()).(actions := old(actions) + [action], updatedAt := at)
    {
      actions := actions + [action];
      updatedAt := at;
    }

    method StartCheckpoint(carried: seq<Action>, trigger: Policy.Trigger, at: int) returns (index: nat)
      modifies this`checkpoints, this`lastCheckpointAt
      ensures View() == Started(old(View()), carried, trigger, at)
      ensures index == |old(checkpoints)| && index + 1 == |checkpoints|
      ensures checkpoints[index].trigger == trigger && checkpoints[index].startedAt == at && lastCheckpointAt == Some(at)
    {
      index := |checkpoints|;
      checkpoints := checkpoints + [Record(index + 1, trigger, Ids(carried), at, None, RUNNING, None, None)];
      lastCheckpointAt := Some(at);
    }

    method CompleteCheckpoint(index: nat, result: CheckpointResult, at: int)
      requires index < |checkpoints|
      modifies this`checkpoints, this`actions, this`checkpoint
      ensures View() == Completed(old(View()), index, result, at)
      ensures checkpoints[index].result == Some(result) && checkpoints[index].finishedAt == Some(at) && checkpoint == Some(result)
      ensures checkpoints[index].failure == old(checkpoints[index].failure)
    {
      var record := checkpoints[index].(result := Some(result), outcome := ACCEPTED, finishedAt := Some(at));
      checkpoints := checkpoints[index := record];
      var proved := IdSet(record.actionIds);
      var i := 0;
      while i < |actions|
        invariant i <= |actions| == |old(actions)|
        invariant forall j :: 0 <= j < i ==> actions[j] == StampIf(old(actions)[j], proved, record.sequence)
        invariant forall j :: i <= j < |actions| ==> actions[j] == old(actions)[j]
        modifies this`actions
      {
        if actions[i].id in proved {
          actions := actions[i := actions[i].(stamp := Some(record.sequence))];
        }
        i := i + 1;
      }
      checkpoint := Some(result);
      assert actions == Stamped(old(actions), proved, record.sequence);
    }

    method FailCheckpoint(index: nat, failure: string, at: int)
      requires index < |checkpoints|
      modifies this`checkpoints
      ensures View() == Failed(old(View()), index, failure, at)
      ensures checkpoints[index].outcome == FAILED && checkpoints[index].failure == Some(failure)
      ensures checkpoints[index].finishedAt == Some(at) && checkpoints[index].result == old(checkpoints[index].result)
    {
      checkpoints := checkpoints[index := FailedRecord(checkpoints[index], failure, at)];
    }

    method RollbackCheckpoint(index: nat, failure: string, at: int)
      requires index < |checkpoints|
      modifies this
      ensures View() == RolledBack(old(View()), index, failure, at)
      ensures checkpoints[index].outcome == FAILED && checkpoints[index].failure == Some(failure)
      ensures checkpoints[index].finishedAt == Some(at) && phase == ACTIVE && updatedAt == at
    {
      var sequence := checkpoints[index].sequence;
      var i := 0;
      while i < |actions|
        invariant i <= |actions| == |old(actions)|
        invariant forall j :: 0 <= j < i ==> actions[j] == UnstampIf(old(actions)[j], sequence)
        invariant forall j :: i <= j < |actions| ==> actions[j] == old(actions)[j]
        modifies this`actions
      {
        if actions[i].stamp == Some(sequence) {
          actions := actions[i := actions[i].(stamp := None)];
        }
        i := i + 1;
      }
      assert actions == Unstamped(old(actions), sequence);
      checkpoints := checkpoints[index := FailedRecord(checkpoints[index], failure, at)];
      var previous := NewestAccepted(checkpoints);
      checkpoint := if previous.Some? then previous.value.result else None;
      phase := ACTIVE;
      updatedAt := at;
    }

    method MigrateRoom()
      modifies this`checkpoints, this`actions
      ensures View() == Migrated(old(View()))
    {
      if checkpoint.Some? && checkpoints == [] {
        checkpoints := [Record(1, Policy.MANUAL, Ids(actions), updatedAt, Some(updatedAt), ACCEPTED, checkpoint, None)];
        var i := 0;
        while i < |actions|
          invariant i <= |actions| == |old(actions)|
          invariant forall j :: 0 <= j < i ==> actions[j] == old(actions)[j].(stamp := Some(1))
          invariant forall j :: i <= j < |actions| ==> actions[j] == old(actions)[j]
          modifies this`actions
        {
          actions := actions[i := actions[i].(stamp := Some(1))];
          i := i + 1;
        }
        assert actions == Migrated(old(View())).actions;
      }
    }

    /** After a restart no worker is left: migrate, then fail whatever still counts as running. */
    method Restore(at: int)
      modifies this`checkpoints, this`actions
      ensures View() == Restored(old(View()), at)
    {
      MigrateRoom();
      ghost var before := checkpoints;
      var i := 0;
      while i < |checkpoints|
        invariant i <= |checkpoints| == |before|
        invariant forall j :: 0 <= j < i ==> checkpoints[j] == RestoredRecord(before[j], at)
        invariant forall j :: i <= j < |checkpoints| ==> checkpoints[j] == before[j]
        modifies this`checkpoints
      {
        if checkpoints[i].outcome == RUNNING {
          checkpoints := checkpoints[i := FailedRecord(checkpoints[i], RESTART_FAILURE, at)];
        }
        i := i + 1;
      }
      assert checkpoints == RestoredRecords(before, at);
    }
  }

  // ----- What the operations keep

  lemma AddKeepsCursor(room: Room, action: Action)
    requires CursorInv(room) && action.stamp.None?
    requires forall a :: a in room.actions ==> a.id != action.id
    ensures CursorInv(room.(actions := room.actions + [action]))
    ensures Pending(room.actions + [action]) == Pending(room.actions) + [action]
  {
    var grown := room.(actions := room.actions + [action]);
    var k := |Carried(room.checkpoints)|;
    PendingAfterPrefix(room);
    PendingAfterPrefix(grown);
    assert grown.actions[k..] == room.actions[k..] + [action];
    if HasRunning(room.checkpoints) {
      var n := |room.checkpoints[|room.checkpoints| - 1].actionIds|;
      assert grown.actions[k..k + n] == room.actions[k..k + n];
    }
  }

  lemma StartKeepsCursor(room: Room, trigger: Policy.Trigger, at: int)
    requires CursorInv(room) && !HasRunning(room.checkpoints)
    ensures CursorInv(Started(room, Pending(room.actions), trigger, at))
    ensures Carried(Started(room, Pending(room.actions), trigger, at).checkpoints) == Carried(room.checkpoints)
  {
    var carried := Pending(room.actions);
    var started := Started(room, carried, trigger, at);
    var record := started.checkpoints[|room.checkpoints|];
    CarriedAppend(room.checkpoints, record);
    PendingAfterPrefix(room);
    assert started.checkpoints[..|room.checkpoints|] == room.checkpoints;
    assert room.actions[|Carried(room.checkpoints)|..|room.actions|] == carried;
  }

  /** Stamping the ids of a segment of a log of distinct moves stamps that segment and nothing else. */
  lemma StampedSegment(actions: seq<Action>, k: nat, ids: seq<ActionId>, sequence: nat)
    requires DistinctIds(actions) && k + |ids| <= |actions| && ids == Ids(actions[k..k + |ids|])
    ensures forall i :: 0 <= i < |actions| ==>
              Stamped(actions, IdSet(ids), sequence)[i]
              == if k <= i < k + |ids| then actions[i].(stamp := Some(sequence)) else actions[i]
  {
    forall i | 0 <= i < |actions|
      ensures actions[i].id in ids <==> k <= i < k + |ids|
    {
      if k <= i < k + |ids| {
        assert ids[i - k] == actions[i].id;
      }
    }
  }

  lemma PrefixGrows(before: seq<Action>, after: seq<Action>, carried: seq<(ActionId, nat)>, more: seq<(ActionId, nat)>)
    requires StampedPrefix(before, carried) && |carried| + |more| <= |before| == |after|
    requires forall i :: 0 <= i < |more| ==>
               before[|carried| + i].id == more[i].0 && after[|carried| + i] == before[|carried| + i].(stamp := Some(more[i].1))
    requires forall i :: 0 <= i < |carried| || |carried| + |more| <= i < |before| ==> after[i] == before[i]
    ensures StampedPrefix(after, carried + more)
  {
    forall i | |carried| <= i < |carried| + |more|
      ensures after[i].id == (carried + more)[i].0 && after[i].stamp == Some((carried + more)[i].1)
    {
      assert before[|carried| + (i - |carried|)].id == more[i - |carried|].0;
    }
  }

  lemma StampExtendsPrefix(actions: seq<Action>, carried: seq<(ActionId, nat)>, record: Record)
    requires DistinctIds(actions) && StampedPrefix(actions, carried)
    requires |carried| + |record.actionIds| <= |actions|
    requires record.actionIds == Ids(actions[|carried|..|carried| + |record.actionIds|])
    ensures StampedPrefix(Stamped(actions, IdSet(record.actionIds), record.sequence), carried + Carriage(record))
  {
    var k := |carried|;
    StampedSegment(actions, k, record.actionIds, record.sequence);
    forall i | 0 <= i < |record.actionIds|
      ensures actions[k + i].id == Carriage(record)[i].0
    {
      assert record.actionIds[i] == actions[k..k + |record.actionIds|][i].id;
    }
    PrefixGrows(actions, Stamped(actions, IdSet(record.actionIds), record.sequence), carried, Carriage(record));
  }

  lemma CompletedHistory(records: seq<Record>, done: Record)
    requires HistoryInv(records) && HasRunning(records)
    requires done.outcome == ACCEPTED && done.result.Some?
    requires done.sequence == |records|
    ensures var last := |records| - 1;
            var after := records[last := done];
            && HistoryInv(after) && !HasRunning(after)
            && records[last].outcome == RUNNING
            && Carried(after) == Carried(records) + Carriage(done)
            && LatestResult(after) == done.result
  {
    var last := |records| - 1;
    var front := records[..last];
    assert records == front + [records[last]];
    assert records[last := done] == front + [done];
    CarriedAppend(front, records[last]);
    CarriedAppend(front, done);
  }

  /** Acceptance moves exactly the moves of the attempt from pending to carried. */
  lemma CompleteKeepsCursor(room: Room, result: CheckpointResult, at: int)
    requires CursorInv(room) && HasRunning(room.checkpoints)
    ensures var last := |room.checkpoints| - 1;
            var done := Completed(room, last, result, at);
            && room.checkpoints[last].outcome == RUNNING
            && CursorInv(done) && !HasRunning(done.checkpoints)
            && Carried(done.checkpoints) == Carried(room.checkpoints) + Carriage(room.checkpoints[last])
            && Pending(room.actions) == room.actions[|Carried(room.checkpoints)|..]
            && Pending(done.actions) == room.actions[|Carried(done.checkpoints)|..]
  {
    var last := |room.checkpoints| - 1;
    var done := Completed(room, last, result, at);
    var record := done.checkpoints[last];
    CompletedHistory(room.checkpoints, record);
    CompletedCursor(room.actions, room.checkpoints, record);
    PendingAfterPrefix(room);
    PendingAfterPrefix(done);
  }

  /** Stamping what the running attempt carried extends the stamped prefix and leaves what follows it alone. */
  lemma CompletedCursor(actions: seq<Action>, records: seq<Record>, done: Record)
    requires DistinctIds(actions) && StampedPrefix(actions, Carried(records))
    requires |Carried(records)| + |done.actionIds| <= |actions|
    requires done.actionIds == Ids(actions[|Carried(records)|..|Carried(records)| + |done.actionIds|])
    ensures var after, k := Stamped(actions, IdSet(done.actionIds), done.sequence), |Carried(records)| + |done.actionIds|;
            && StampedPrefix(after, Carried(records) + Carriage(done))
            && |after| == |actions| && after[k..] == actions[k..] && DistinctIds(after)
  {
    StampExtendsPrefix(actions, Carried(records), done);
    StampedSegment(actions, |Carried(records)|, done.actionIds, done.sequence);
  }

  lemma FailKeepsCursor(room: Room, index: nat, failure: string, at: int)
    requires CursorInv(room)
    requires index < |room.checkpoints| && room.checkpoints[index].outcome == RUNNING
    ensures CursorInv(Failed(room, index, failure, at))
    ensures Failed(room, index, failure, at).actions == room.actions
    ensures Carried(Failed(room, index, failure, at).checkpoints) == Carried(room.checkpoints)
    ensures !HasRunning(Failed(room, index, failure, at).checkpoints)
  {
    var failed := Failed(room, index, failure, at);
    var front := room.checkpoints[..index];
    assert index == |room.checkpoints| - 1;
    assert failed.checkpoints[..index] == front;
    CarriedOfPrefix(room.checkpoints, index);
    CarriedOfPrefix(failed.checkpoints, index);
  }

  lemma RestoreKeepsCursor(room: Room, at: int)
    requires CursorInv(room)
    ensures CursorInv(Restored(room, at)) && !HasRunning(Restored(room, at).checkpoints)
    ensures Restored(room, at).actions == room.actions && Restored(room, at).phase == room.phase
    ensures Carried(Restored(room, at).checkpoints) == Carried(room.checkpoints)
  {
    var restored := Restored(room, at);
    if HasRunning(room.checkpoints) {
      var last := |room.checkpoints| - 1;
      FailKeepsCursor(room, last, RESTART_FAILURE, at);
      assert restored.checkpoints == Failed(room, last, RESTART_FAILURE, at).checkpoints;
    } else {
      assert restored.checkpoints == room.checkpoints;
    }
  }

  lemma OneRecordCursor(actions: seq<Action>, record: Record)
    requires record.outcome == ACCEPTED && record.sequence == 1 && record.result.Some? && record.actionIds == Ids(actions)
    requires forall a :: a in actions ==> a.stamp == Some(1)
    ensures HistoryInv([record]) && StampedPrefix(actions, Carried([record])) && |Carried([record])| == |actions|
    ensures LatestResult([record]) == record.result
  {
    assert [record] == [] + [record];
    CarriedAppend([], record);
    assert Carried([record]) == Carriage(record);
  }

  /** A room from before histories existed gets one that stamps its whole log; any other is untouched. */
  lemma MigrateEstablishesCursor(room: Room)
    requires DistinctIds(room.actions) && room.checkpoints == []
    requires forall a :: a in room.actions ==> a.stamp.None?
    ensures CursorInv(Migrated(room))
    ensures Migrated(Migrated(room)) == Migrated(room)
    ensures room.checkpoint.Some? ==> Pending(Migrated(room).actions) == []
  {
    var migrated := Migrated(room);
    if room.checkpoint.Some? {
      var record := migrated.checkpoints[0];
      assert Ids(migrated.actions) == Ids(room.actions);
      OneRecordCursor(migrated.actions, record);
      PendingAfterPrefix(migrated);
    } else {
      assert Carried(room.checkpoints) == [];
    }
  }

  // ----- Retraction

  predicate IsNewestAccepted(records: seq<Record>, index: nat) {
    && index < |records| && records[index].outcome == ACCEPTED
    && forall i :: index < i < |records| ==> records[i].outcome != ACCEPTED
  }

  lemma {:induction false} NewestAcceptedIsLatest(records: seq<Record>)
    requires forall i, j :: 0 <= i < j < |records| ==> records[i].sequence < records[j].sequence
    ensures LatestResult(records) == (if NewestAccepted(records).Some? then NewestAccepted(records).value.result else None)
  {
    if records != [] {
      var front, last := records[..|records| - 1], records[|records| - 1];
      NewestAcceptedIsLatest(front);
      NewestAcceptedAppend(front, last);
      assert records == front + [last];
    }
  }

  lemma {:induction false} NewestAcceptedAppend(front: seq<Record>, last: Record)
    requires forall r :: r in front ==> r.sequence < last.sequence
    ensures NewestAccepted(front + [last])
            == if last.outcome == ACCEPTED && last.result.Some? then Some(last) else NewestAccepted(front)
  {
    if front != [] {
      NewestAcceptedAppend(front[1..], last);
      assert (front + [last])[1..] == front[1..] + [last];
    }
  }

  lemma RolledBackHistory(records: seq<Record>, index: nat, failed: Record)
    requires HistoryInv(records) && !HasRunning(records) && IsNewestAccepted(records, index)
    requires failed.outcome == FAILED && failed.sequence == records[index].sequence
    ensures var after := records[index := failed];
            && HistoryInv(after) && !HasRunning(after)
            && Carried(after) == Carried(records[..index])
            && Carried(records) == Carried(records[..index]) + Carriage(records[index])
            && LatestResult(after) == LatestResult(records[..index])
            && (NewestAccepted(after).Some? ==> NewestAccepted(after).value.result == LatestResult(after))
            && (NewestAccepted(after).None? ==> LatestResult(after).None?)
  {
    var after := records[index := failed];
    var front := records[..index];
    assert after[..index] == front;
    CarriedOfPrefix(after, index);
    CarriedOfPrefix(records, index + 1);
    assert records[..index + 1] == front + [records[index]];
    CarriedAppend(front, records[index]);
    NewestAcceptedIsLatest(after);
  }

  lemma UnstampShrinksPrefix(actions: seq<Action>, front: seq<Record>, record: Record)
    requires HistoryInv(front) && record.sequence == |front| + 1
    requires StampedPrefix(actions, Carried(front) + Carriage(record))
    ensures StampedPrefix(Unstamped(actions, record.sequence), Carried(front))
    ensures forall i :: 0 <= i < |Carried(front)| ==> Unstamped(actions, record.sequence)[i] == actions[i]
  {
    var k := |Carried(front)|;
    var all := Carried(front) + Carriage(record);
    forall i | 0 <= i < k
      ensures actions[i].stamp == Some(Carried(front)[i].1) && Carried(front)[i].1 != record.sequence
    {
      assert all[i] == Carried(front)[i];
      CarriedComesFrom(front, i);
    }
    forall i | k <= i < |all|
      ensures actions[i].stamp == Some(record.sequence)
    {
      assert all[i] == Carriage(record)[i - k];
    }
  }

  /** Retracting the newest accepted attempt restores the cursor and result that stood before it. */
  lemma RollbackRestoresCursor(room: Room, index: nat, failure: string, at: int)
    requires CursorInv(room) && !HasRunning(room.checkpoints)
    requires IsNewestAccepted(room.checkpoints, index)
    ensures var back := RolledBack(room, index, failure, at);
            && CursorInv(back) && !HasRunning(back.checkpoints)
            && Carried(back.checkpoints) == Carried(room.checkpoints[..index])
            && back.checkpoint == LatestResult(room.checkpoints[..index])
  {
    var record := room.checkpoints[index];
    RolledBackHistory(room.checkpoints, index, FailedRecord(record, failure, at));
    UnstampShrinksPrefix(room.actions, room.checkpoints[..index], record);
  }

  lemma StampThenUnstamp(actions: seq<Action>, front: seq<Record>, record: Record)
    requires DistinctIds(actions) && HistoryInv(front) && record.sequence == |front| + 1
    requires StampedPrefix(actions, Carried(front))
    requires |Carried(front)| + |record.actionIds| <= |actions|
    requires record.actionIds == Ids(actions[|Carried(front)|..|Carried(front)| + |record.actionIds|])
    ensures Unstamped(Stamped(actions, IdSet(record.actionIds), record.sequence), record.sequence) == actions
  {
    var k := |Carried(front)|;
    var stamped := Stamped(actions, IdSet(record.actionIds), record.sequence);
    StampedSegment(actions, k, record.actionIds, record.sequence);
    StampExtendsPrefix(actions, Carried(front), record);
    UnstampShrinksPrefix(stamped, front, record);
    assert forall i :: k <= i < |actions| ==> actions[i].stamp.None?;
  }

  /** Acceptance followed by retraction is the room the attempt ran in, apart from the attempt's own record. */
  lemma RollbackUndoesComplete(room: Room, result: CheckpointResult, failure: string, at: int, later: int)
    requires CursorInv(room) && HasRunning(room.checkpoints)
    ensures var last := |room.checkpoints| - 1;
            var back := RolledBack(Completed(room, last, result, at), last, failure, later);
            && back.actions == room.actions && back.checkpoint == room.checkpoint
            && back.checkpoints[..last] == room.checkpoints[..last]
            && back.checkpoints[last].outcome == FAILED
  {
    var last := |room.checkpoints| - 1;
    var done := Completed(room, last, result, at);
    var record := done.checkpoints[last];
    var front := room.checkpoints[..last];
    CarriedOfPrefix(room.checkpoints, last);
    assert RolledBack(done, last, failure, later).actions == room.actions by {
      StampThenUnstamp(room.actions, front, record);
    }
    assert RolledBack(done, last, failure, later).checkpoint == room.checkpoint by {
      assert done.checkpoints[..last] == front;
      CompletedHistory(room.checkpoints, record);
      RolledBackHistory(done.checkpoints, last, FailedRecord(record, failure, later));
    }
  }

  /** Retraction keeps the cursor exactly when the attempt is the newest accepted one. */
  lemma RollbackKeepsCursorIff(room: Room, index: nat, failure: string, at: int)
    requires CursorInv(room) && !HasRunning(room.checkpoints)
    requires index < |room.checkpoints| && room.checkpoints[index].outcome == ACCEPTED
    requires forall r :: r in room.checkpoints ==> r.actionIds != []
    ensures CursorInv(RolledBack(room, index, failure, at)) <==> IsNewestAccepted(room.checkpoints, index)
  {
    var back := RolledBack(room, index, failure, at);
    if IsNewestAccepted(room.checkpoints, index) {
      RollbackRestoresCursor(room, index, failure, at);
    } else if CursorInv(back) {
      // The oldest reopened move sits below a still-stamped one.
      var later :| index < later < |room.checkpoints| && room.checkpoints[later].outcome == ACCEPTED;
      var id, newer := room.checkpoints[index].actionIds[0], room.checkpoints[later].actionIds[0];
      var p := CarriedContains(room.checkpoints, index, id);
      var q := CarriedContains(back.checkpoints, later, newer);
      var r := CarriedContains(room.checkpoints, later, newer);
      assert back.actions[p].stamp.None?;
      assert back.actions[q].id == newer == room.actions[r].id;
      assert q == r;
      CarriedOrdered(room.checkpoints, p, r);
      assert false;
    }
  }

  /** Later attempts carry later moves. */
  lemma {:induction false} CarriedOrdered(records: seq<Record>, p: nat, r: nat)
    requires HistoryInv(records)
    requires p < |Carried(records)| && r < |Carried(records)|
    requires Carried(records)[p].1 < Carried(records)[r].1
    ensures p < r
  {
    var front := records[..|records| - 1];
    assert HistoryInv(front);
    if p < |Carried(front)| && r < |Carried(front)| {
      CarriedOrdered(front, p, r);
    } else if r < |Carried(front)| {
      CarriedComesFrom(front, r);
    }
  }

  lemma ReopenedBlock(actions: seq<Action>, back: seq<Action>, k: nat, n: nat, block: Block)
    requires k + n <= |actions| == |back|
    requires forall i :: 0 <= i < |actions| ==> back[i].block == actions[i].block
    ensures |InBlock(back[k..], block)| == |InBlock(actions[k..k + n], block)| + |InBlock(actions[k + n..], block)|
  {
    InBlockConcat(actions[k..k + n], actions[k + n..], block);
    assert actions[k..] == actions[k..k + n] + actions[k + n..];
    SameBlocks(back[k..], actions[k..], block);
  }

  /** The moves an accepted attempt carried, as they stand in the log. */
  function Reopened(room: Room, index: nat): seq<Action>
    requires index < |room.checkpoints|
  {
    var k, n := |Carried(room.checkpoints[..index])|, |room.checkpoints[index].actionIds|;
    if k + n <= |room.actions| then room.actions[k..k + n] else []
  }

  /** Where the pending moves begin, before and after a retraction. */
  lemma RollbackMovesCursor(room: Room, index: nat, failure: string, at: int)
    requires CursorInv(room) && !HasRunning(room.checkpoints)
    requires IsNewestAccepted(room.checkpoints, index)
    ensures var k, n := |Carried(room.checkpoints[..index])|, |room.checkpoints[index].actionIds|;
            && k + n <= |room.actions| && Reopened(room, index) == room.actions[k..k + n]
            && Pending(room.actions) == room.actions[k + n..]
            && Pending(RolledBack(room, index, failure, at).actions)
               == Unstamped(room.actions, room.checkpoints[index].sequence)[k..]
  {
    RolledBackHistory(room.checkpoints, index, FailedRecord(room.checkpoints[index], failure, at));
    PendingAfterPrefix(room);
    RollbackRestoresCursor(room, index, failure, at);
    PendingAfterPrefix(RolledBack(room, index, failure, at));
  }

  lemma ReopenedJoin(
      actions: seq<Action>, sequence: nat, k: nat, n: nat, block: Block,
      reopened: seq<Action>, waiting: seq<Action>, pending: seq<Action>)
    requires k + n <= |actions| && reopened == actions[k..k + n] && waiting == actions[k + n..]
    requires pending == Unstamped(actions, sequence)[k..]
    ensures |InBlock(pending, block)| == |InBlock(reopened, block)| + |InBlock(waiting, block)|
  {
    ReopenedBlock(actions, Unstamped(actions, sequence), k, n, block);
  }

  /** Reopened moves join the ones already waiting. */
  lemma RollbackReopens(room: Room, index: nat, failure: string, at: int, block: Block)
    requires CursorInv(room) && !HasRunning(room.checkpoints)
    requires IsNewestAccepted(room.checkpoints, index)
    ensures |InBlock(Pending(RolledBack(room, index, failure, at).actions), block)|
            == |InBlock(Reopened(room, index), block)| + |InBlock(Pending(room.actions), block)|
  {
    RollbackMovesCursor(room, index, failure, at);
    ReopenedJoin(room.actions, room.checkpoints[index].sequence, |Carried(room.checkpoints[..index])|,
                 |room.checkpoints[index].actionIds|, block, Reopened(room, index), Pending(room.actions),
                 Pending(RolledBack(room, index, failure, at).actions));
  }

  lemma {:induction false} SameBlocks(a: seq<Action>, b: seq<Action>, block: Block)
    requires |a| == |b| && forall i :: 0 <= i < |a| ==> a[i].block == b[i].block
    ensures |InBlock(a, block)| == |InBlock(b, block)|
  {
    if a != [] {
      SameBlocks(a[1..], b[1..], block);
    }
  }
}
