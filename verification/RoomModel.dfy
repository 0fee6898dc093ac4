/** The stored room: its move log, its attempt history, and the cursor that links them. */
module RoomModel {
  import opened Wrappers
  import Policy = CheckpointPolicy

  type ActionId = string

  datatype Block = One | Two

  datatype Phase =
    | ROOM_READY | DEPLOYED | ACTIVE | PROVING | LOCALLY_VERIFIED
    | L1_PENDING | L1_ACCEPTED | L1_FINALIZED | CLOSED | FAILED_PHASE

  /** A transaction signed for the prover by a deterministic fixture key. */
  datatype FixtureTx = FixtureTx(signer: nat, chainId: nat, nonce: nat, to: string, data: string, gas: int)

  /** Signed bytes: a browser's own envelope is opaque, a fixture's is what was signed. */
  datatype Envelope = Browser(bytes: string) | Fixture(tx: FixtureTx)

  datatype Action = Action(
    id: ActionId,
    calldata: string,
    fixtureSigner: Option<nat>,
    gasLimit: Option<int>,
    block: Block,
    signed: Option<Envelope>,
    stamp: Option<nat>)

  datatype Outcome = RUNNING | ACCEPTED | FAILED

  datatype CheckpointResult = CheckpointResult(
    batchIndex: nat,
    l1Block: string,
    l1BlockHash: string,
    finalizedL1Block: string,
    finalizedL1BlockHash: string,
    l1TransactionHash: string,
    postStateRoot: string,
    explorerUrl: Option<string>)

  datatype Record = Record(
    sequence: nat,
    trigger: Policy.Trigger,
    actionIds: seq<ActionId>,
    startedAt: int,
    finishedAt: Option<int>,
    outcome: Outcome,
    result: Option<CheckpointResult>,
    failure: Option<string>)

  datatype Room = Room(
    phase: Phase,
    createdAt: int,
    updatedAt: int,
    chainRoomId: Option<nat>,
    actions: seq<Action>,
    checkpoint: Option<CheckpointResult>,
    checkpoints: seq<Record>,
    proofDeadlineBlock: Option<nat>,
    lastCheckpointAt: Option<int>)

  predicate IsOpen(phase: Phase) {
    phase == ACTIVE || phase == L1_FINALIZED
  }

  function Ids(actions: seq<Action>): (ids: seq<ActionId>)
    ensures |ids| == |actions| && forall i :: 0 <= i < |ids| ==> ids[i] == actions[i].id
  {
    seq(|actions|, i requires 0 <= i < |actions| => actions[i].id)
  }

  /** The moves without a stamp, in log order. */
  function Pending(actions: seq<Action>): seq<Action> {
    if actions == [] then []
    else (if actions[0].stamp.None? then [actions[0]] else []) + Pending(actions[1..])
  }

  function InBlock(actions: seq<Action>, block: Block): seq<Action> {
    if actions == [] then []
    else (if actions[0].block == block then [actions[0]] else []) + InBlock(actions[1..], block)
  }

  predicate HasRunning(records: seq<Record>) {
    exists i :: 0 <= i < |records| && records[i].outcome == RUNNING
  }

  predicate DistinctIds(actions: seq<Action>) {
    forall i, j :: 0 <= i < j < |actions| ==> actions[i].id != actions[j].id
  }

  /** The `(move, sequence)` pairs the ACCEPTED attempts carried, attempt after attempt. */
  function Carried(records: seq<Record>): seq<(ActionId, nat)> {
    if records == [] then []
    else
      var last := records[|records| - 1];
      if last.outcome == ACCEPTED then Carried(records[..|records| - 1]) + Carriage(last)
      else Carried(records[..|records| - 1])
  }

  function Carriage(record: Record): (pairs: seq<(ActionId, nat)>)
    ensures |pairs| == |record.actionIds|
  {
    seq(|record.actionIds|, i requires 0 <= i < |record.actionIds| => (record.actionIds[i], record.sequence))
  }

  /** The result of the newest accepted attempt. */
  function LatestResult(records: seq<Record>): Option<CheckpointResult> {
    if records == [] then None
    else
      var last := records[|records| - 1];
      if last.outcome == ACCEPTED && last.result.Some? then last.result
      else LatestResult(records[..|records| - 1])
  }

  /** Attempts are numbered 1..n in start order and only the newest can be running. */
  predicate HistoryInv(records: seq<Record>) {
    && (forall i :: 0 <= i < |records| ==> records[i].sequence == i + 1)
    && (forall i :: 0 <= i < |records| - 1 ==> records[i].outcome != RUNNING)
    && (forall i :: 0 <= i < |records| && records[i].outcome == ACCEPTED ==> records[i].result.Some?)
  }

  /** The moves the accepted attempts carried are, in order, exactly the stamped prefix of the log. */
  predicate StampedPrefix(actions: seq<Action>, carried: seq<(ActionId, nat)>) {
    && |carried| <= |actions|
    && (forall i :: 0 <= i < |carried| ==>
          actions[i].id == carried[i].0 && actions[i].stamp == Some(carried[i].1))
    && (forall i :: |carried| <= i < |actions| ==> actions[i].stamp.None?)
  }

  /** A running attempt carries the oldest moves still pending. */
  predicate RunningCarriesPending(actions: seq<Action>, records: seq<Record>) {
    (records != [] && records[|records| - 1].outcome == RUNNING) ==>
      var ids := records[|records| - 1].actionIds;
      var k := |Carried(records)|;
      && k + |ids| <= |actions|
      && ids == Ids(actions[k..k + |ids|])
  }

  predicate CursorInv(room: Room) {
    && DistinctIds(room.actions)
    && HistoryInv(room.checkpoints)
    && StampedPrefix(room.actions, Carried(room.checkpoints))
    && RunningCarriesPending(room.actions, room.checkpoints)
    && room.checkpoint == LatestResult(room.checkpoints)
  }

  lemma {:induction false} PendingIsSuffix(actions: seq<Action>, k: nat)
    requires k <= |actions|
    requires forall i :: 0 <= i < k ==> actions[i].stamp.Some?
    requires forall i :: k <= i < |actions| ==> actions[i].stamp.None?
    ensures Pending(actions) == actions[k..]
  {
    if actions != [] {
      if k == 0 {
        PendingIsSuffix(actions[1..], 0);
        assert actions == [actions[0]] + actions[1..];
      } else {
        PendingIsSuffix(actions[1..], k - 1);
        assert actions[1..][k - 1..] == actions[k..];
      }
    }
  }

  /** In a consistent room the pending moves are exactly those after the stamped prefix. */
  lemma PendingAfterPrefix(room: Room)
    requires StampedPrefix(room.actions, Carried(room.checkpoints))
    ensures Pending(room.actions) == room.actions[|Carried(room.checkpoints)|..]
  {
    PendingIsSuffix(room.actions, |Carried(room.checkpoints)|);
  }

  lemma InBlockHead(actions: seq<Action>, block: Block)
    requires actions != []
    ensures InBlock(actions, block)
            == if actions[0].block == block then [actions[0]] + InBlock(actions[1..], block)
               else InBlock(actions[1..], block)
  {
    assert [] + InBlock(actions[1..], block) == InBlock(actions[1..], block);
  }

  lemma {:induction false} InBlockConcat(a: seq<Action>, b: seq<Action>, block: Block)
    ensures InBlock(a + b, block) == InBlock(a, block) + InBlock(b, block)
  {
    if a == [] {
      assert a + b == b;
    } else {
      InBlockConcat(a[1..], b, block);
      assert (a + b)[1..] == a[1..] + b;
    }
  }

  lemma {:induction false} CarriedAppend(records: seq<Record>, record: Record)
    ensures Carried(records + [record])
            == if record.outcome == ACCEPTED then Carried(records) + Carriage(record) else Carried(records)
  {
    assert (records + [record])[..|records|] == records;
  }

  /** Attempts that were not accepted leave no trace in what was carried. */
  lemma {:induction false} CarriedOfPrefix(records: seq<Record>, k: nat)
    requires k <= |records|
    requires forall i :: k <= i < |records| ==> records[i].outcome != ACCEPTED
    ensures Carried(records) == Carried(records[..k])
    ensures LatestResult(records) == LatestResult(records[..k])
  {
    if k == |records| {
      assert records[..k] == records;
    } else {
      CarriedOfPrefix(records[..|records| - 1], k);
      assert records[..|records| - 1][..k] == records[..k];
    }
  }

  lemma {:induction false} CarriedSplit(records: seq<Record>, k: nat)
    requires k <= |records|
    ensures |Carried(records[..k])| <= |Carried(records)|
    ensures Carried(records)[..|Carried(records[..k])|] == Carried(records[..k])
  {
    if k == |records| {
      assert records[..k] == records;
    } else {
      CarriedSplit(records[..|records| - 1], k);
      assert records[..|records| - 1][..k] == records[..k];
    }
  }

  /** Every carried pair comes from the accepted record its number names. */
  lemma {:induction false} CarriedComesFrom(records: seq<Record>, i: nat)
    requires HistoryInv(records) && i < |Carried(records)|
    ensures var pair := Carried(records)[i];
            && 1 <= pair.1 <= |records|
            && records[pair.1 - 1].outcome == ACCEPTED
            && pair.0 in records[pair.1 - 1].actionIds
  {
    var front := records[..|records| - 1];
    if i < |Carried(front)| {
      CarriedComesFrom(front, i);
    }
  }

  lemma {:induction false} CarriedContains(records: seq<Record>, j: nat, id: ActionId) returns (i: nat)
    requires j < |records| && records[j].outcome == ACCEPTED && id in records[j].actionIds
    ensures i < |Carried(records)| && Carried(records)[i] == (id, records[j].sequence)
  {
    CarriedAppend(records[..j], records[j]);
    assert records[..j + 1] == records[..j] + [records[j]];
    CarriedSplit(records, j + 1);
    var p :| 0 <= p < |records[j].actionIds| && records[j].actionIds[p] == id;
    i := |Carried(records[..j])| + p;
    assert Carried(records)[..|Carried(records[..j + 1])|][i] == (id, records[j].sequence);
  }
}
