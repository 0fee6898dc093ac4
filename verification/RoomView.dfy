/** The published settlement of a move, which must agree with the cursor. */
module RoomView {
  import opened Wrappers
  import opened RoomModel
  import opened RoomRuns
  import Replay

  datatype SettlementLink = SettlementLink(
    checkpointSequence: nat,
    batchIndex: nat,
    l1Block: string,
    l1BlockHash: string,
    finalizedL1Block: string,
    finalizedL1BlockHash: string,
    l1TransactionHash: string,
    explorerUrl: Option<string>)

  function FindAccepted(records: seq<Record>, sequence: nat): Option<Record> {
    if records == [] then None
    else if records[0].sequence == sequence && records[0].outcome == ACCEPTED then Some(records[0])
    else FindAccepted(records[1..], sequence)
  }

  function LinkOf(sequence: nat, result: CheckpointResult): SettlementLink {
    SettlementLink(sequence, result.batchIndex, result.l1Block, result.l1BlockHash,
                   result.finalizedL1Block, result.finalizedL1BlockHash, result.l1TransactionHash, result.explorerUrl)
  }

  /** Where a move was settled, if an accepted attempt carried it. */
  function SettlementOf(room: Room, action: Action): Option<SettlementLink> {
    if action.stamp.None? then None
    else
      var record := FindAccepted(room.checkpoints, action.stamp.value);
      if record.None? || record.value.result.None? then None
      else Some(LinkOf(record.value.sequence, record.value.result.value))
  }

  /** Field by field, what the link publishes of an attempt's result. */
  predicate Shows(link: SettlementLink, sequence: nat, result: CheckpointResult) {
    && link.checkpointSequence == sequence && link.batchIndex == result.batchIndex
    && link.l1Block == result.l1Block && link.l1BlockHash == result.l1BlockHash
    && link.finalizedL1Block == result.finalizedL1Block && link.finalizedL1BlockHash == result.finalizedL1BlockHash
    && link.l1TransactionHash == result.l1TransactionHash && link.explorerUrl == result.explorerUrl
  }

  predicate Carries(records: seq<Record>, j: nat, id: ActionId) {
    j < |records| && records[j].outcome == ACCEPTED && id in records[j].actionIds
  }

  lemma {:induction false} FindAcceptedAt(records: seq<Record>, base: nat, j: nat)
    requires forall i :: 0 <= i < |records| ==> records[i].sequence == base + i + 1
    requires j < |records| && records[j].outcome == ACCEPTED
    ensures FindAccepted(records, base + j + 1) == Some(records[j])
  {
    if j > 0 {
      FindAcceptedAt(records[1..], base + 1, j - 1);
    }
  }

  /** Only the attempt a move is stamped with can have carried it. */
  lemma CarrierIsStamp(room: Room, i: nat, j: nat)
    requires CursorInv(room) && i < |room.actions| && Carries(room.checkpoints, j, room.actions[i].id)
    ensures room.actions[i].stamp == Some(j + 1)
  {
    var p := CarriedContains(room.checkpoints, j, room.actions[i].id);
    assert room.actions[p].id == room.actions[i].id;
  }

  lemma StampIsCarrier(room: Room, i: nat)
    requires CursorInv(room) && i < |room.actions| && room.actions[i].stamp.Some?
    ensures 1 <= room.actions[i].stamp.value && Carries(room.checkpoints, room.actions[i].stamp.value - 1, room.actions[i].id)
  {
    CarriedComesFrom(room.checkpoints, i);
  }

  /**
   * In every room a run reaches, each stamped move's published settlement is
   * the result of the one accepted attempt that carried it; a move without a
   * settlement was carried by none.
   */
  lemma SettlementIsTheOneCarrier(
    mode: Mode, createdAt: int, deadline: Option<nat>, chain: Replay.OnChainRoom, steps: seq<Step>, i: nat)
    requires chain.batchIndex == 0
    requires Run(Initial(mode, createdAt, deadline, chain), steps).Some?
    requires i < |Run(Initial(mode, createdAt, deadline, chain), steps).value.room.actions|
    ensures var room := Run(Initial(mode, createdAt, deadline, chain), steps).value.room;
            var action := room.actions[i];
            && (SettlementOf(room, action).None? <==> action.stamp.None?)
            && (forall j: nat :: Carries(room.checkpoints, j, action.id) <==> action.stamp == Some(j + 1))
            && (forall j: nat :: Carries(room.checkpoints, j, action.id) ==>
                 && room.checkpoints[j].result.Some? && SettlementOf(room, action).Some?
                 && Shows(SettlementOf(room, action).value, j + 1, room.checkpoints[j].result.value))
  {
    InitialInv(mode, createdAt, deadline, chain);
    RunKeepsInv(Initial(mode, createdAt, deadline, chain), steps);
    var room := Run(Initial(mode, createdAt, deadline, chain), steps).value.room;
    SettlementAgreesWithCursor(room, i);
  }

  lemma SettlementAgreesWithCursor(room: Room, i: nat)
    requires CursorInv(room) && i < |room.actions|
    ensures var action := room.actions[i];
            && (SettlementOf(room, action).None? <==> action.stamp.None?)
            && (forall j: nat :: Carries(room.checkpoints, j, action.id) <==> action.stamp == Some(j + 1))
            && (forall j: nat :: Carries(room.checkpoints, j, action.id) ==>
                 && room.checkpoints[j].result.Some? && SettlementOf(room, action).Some?
                 && Shows(SettlementOf(room, action).value, j + 1, room.checkpoints[j].result.value))
  {
    var action := room.actions[i];
    forall j: nat | Carries(room.checkpoints, j, action.id)
      ensures action.stamp == Some(j + 1)
    {
      CarrierIsStamp(room, i, j);
    }
    if action.stamp.Some? {
      StampIsCarrier(room, i);
      FindAcceptedAt(room.checkpoints, 0, action.stamp.value - 1);
    }
  }
}
