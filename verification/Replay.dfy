/**
 * A room's proved history, rebuilt from its log and its accepted records, and
 * the request that carries it to the prover with the next batch.
 */
module Replay {
  import opened Wrappers
  import opened RoomModel
  import State = CheckpointState
  import Hex = HexText

  datatype BlockCall = BlockCall(calldata: string, signerIndex: nat, gasLimit: int)

  datatype RoomMoves = RoomMoves(
    calldata: (seq<string>, seq<string>),
    blockCalls: Option<(seq<BlockCall>, seq<BlockCall>)>,
    signed: Option<(seq<Envelope>, seq<Envelope>)>)

  datatype OnChainRoom = OnChainRoom(
    stateRoot: string, participantRoot: string, participantEpoch: nat, participantCount: nat,
    batchIndex: nat, l2BlockHeight: nat, outboxEpoch: nat)

  datatype Continuation = Continuation(
    batchIndex: nat, startL2Block: nat, preStateRoot: string, preParticipantRoot: string,
    preParticipantEpoch: nat, preParticipantCount: nat, outboxEpoch: nat)

  datatype ReplayError =
    | MoveGone(sequence: nat, id: ActionId)
    | MoveUnsigned(sequence: nat, id: ActionId)
    | BlockLeftEmpty(sequence: nat, first: nat, second: nat)
    | HistoryMismatch(required: nat, reproduced: nat)

  datatype ReplayRequestBody = ReplayRequestBody(batchIndex: nat, rawTransactions: seq<seq<Envelope>>)

  // ----- The moves of one attempt

  predicate AllSigned(actions: seq<Action>) {
    forall i :: 0 <= i < |actions| ==> actions[i].signed.Some?
  }

  predicate HostSigned(action: Action) {
    action.fixtureSigner.Some? && action.gasLimit.Some? && action.gasLimit.value > 0
  }

  function Calldata(actions: seq<Action>): seq<string> {
    seq(|actions|, i requires 0 <= i < |actions| => actions[i].calldata)
  }

  function Calls(actions: seq<Action>): seq<BlockCall>
    requires forall i :: 0 <= i < |actions| ==> HostSigned(actions[i])
  {
    seq(|actions|, i requires 0 <= i < |actions| && HostSigned(actions[i]) =>
      BlockCall(actions[i].calldata, actions[i].fixtureSigner.value, actions[i].gasLimit.value))
  }

  function Envelopes(actions: seq<Action>): (r: seq<Envelope>)
    requires AllSigned(actions)
    ensures |r| == |actions|
  {
    seq(|actions|, i requires 0 <= i < |actions| => actions[i].signed.value)
  }

  lemma {:induction false} InBlockIsSubset(actions: seq<Action>, block: Block)
    ensures forall a :: a in InBlock(actions, block) ==> a in actions && a.block == block
    ensures AllSigned(actions) ==> AllSigned(InBlock(actions, block))
    ensures (forall i :: 0 <= i < |actions| ==> HostSigned(actions[i]))
            ==> forall i :: 0 <= i < |InBlock(actions, block)| ==> HostSigned(InBlock(actions, block)[i])
  {
    if actions != [] {
      InBlockIsSubset(actions[1..], block);
    }
  }

  /** The two envelope lists a signed batch sends. */
  function SignedBlocks(actions: seq<Action>): (seq<Envelope>, seq<Envelope>)
    requires AllSigned(actions)
  {
    InBlockIsSubset(actions, One);
    InBlockIsSubset(actions, Two);
    (Envelopes(InBlock(actions, One)), Envelopes(InBlock(actions, Two)))
  }

  /** An attempt's moves, block by block, in each form a prover may be sent. */
  function MovesOf(actions: seq<Action>): RoomMoves {
    var first, second := InBlock(actions, One), InBlock(actions, Two);
    InBlockIsSubset(actions, One);
    InBlockIsSubset(actions, Two);
    RoomMoves(
      (Calldata(first), Calldata(second)),
      if (forall i :: 0 <= i < |actions| ==> HostSigned(actions[i])) && |actions| > 0
      then Some((Calls(first), Calls(second))) else None,
      if AllSigned(actions) && |actions| > 0 then Some(SignedBlocks(actions)) else None)
  }

  function Into<T>(pair: (seq<T>, seq<T>), block: Block, item: T): (seq<T>, seq<T>) {
    if block == One then (pair.0 + [item], pair.1) else (pair.0, pair.1 + [item])
  }

  lemma InBlockSnoc(actions: seq<Action>, action: Action, block: Block)
    ensures InBlock(actions + [action], block)
            == if action.block == block then InBlock(actions, block) + [action] else InBlock(actions, block)
  {
    InBlockConcat(actions, [action], block);
    InBlockOne(action);
    assert InBlock(actions, block) + [] == InBlock(actions, block);
  }

  lemma CalldataGrows(actions: seq<Action>, action: Action)
    ensures MovesOf(actions + [action]).calldata == Into(MovesOf(actions).calldata, action.block, action.calldata)
  {
    InBlockSnoc(actions, action, One);
    InBlockSnoc(actions, action, Two);
    var front := InBlock(actions, action.block);
    assert Calldata(front + [action]) == Calldata(front) + [action.calldata];
  }

  lemma SignedGrows(actions: seq<Action>, action: Action)
    requires AllSigned(actions) && action.signed.Some?
    ensures AllSigned(actions + [action])
    ensures SignedBlocks(actions + [action]) == Into(SignedBlocks(actions), action.block, action.signed.value)
  {
    var all := actions + [action];
    assert AllSigned(all) by {
      assert forall i :: 0 <= i < |actions| ==> all[i] == actions[i];
    }
    InBlockSnoc(actions, action, One);
    InBlockSnoc(actions, action, Two);
    InBlockIsSubset(actions, action.block);
    EnvelopesSnoc(InBlock(actions, action.block), action);
  }

  lemma SignedOfOne(action: Action)
    requires action.signed.Some?
    ensures AllSigned([action])
    ensures SignedBlocks([action]) == Into(([], []), action.block, action.signed.value)
  {
    InBlockOne(action);
    EnvelopesSnoc([], action);
    assert [] + [action] == [action];
    assert Envelopes([]) == [];
  }

  lemma CallsSnoc(front: seq<Action>, action: Action)
    requires HostSigned(action) && forall i :: 0 <= i < |front| ==> HostSigned(front[i])
    ensures forall i :: 0 <= i < |front + [action]| ==> HostSigned((front + [action])[i])
    ensures Calls(front + [action])
            == Calls(front) + [BlockCall(action.calldata, action.fixtureSigner.value, action.gasLimit.value)]
  {
  }

  lemma CallsGrow(actions: seq<Action>, action: Action)
    requires HostSigned(action) && MovesOf(actions).blockCalls.Some?
    ensures MovesOf(actions + [action]).blockCalls
            == Some(Into(MovesOf(actions).blockCalls.value, action.block,
                         BlockCall(action.calldata, action.fixtureSigner.value, action.gasLimit.value)))
  {
    var all := actions + [action];
    InBlockSnoc(actions, action, One);
    InBlockSnoc(actions, action, Two);
    InBlockIsSubset(actions, action.block);
    CallsSnoc(InBlock(actions, action.block), action);
    assert forall i :: 0 <= i < |all| ==> HostSigned(all[i]);
  }

  lemma MovesOfOne(action: Action)
    ensures action.signed.Some? ==> MovesOf([action]).signed == Some(Into(([], []), action.block, action.signed.value))
    ensures HostSigned(action) ==>
              MovesOf([action]).blockCalls
              == Some(Into(([], []), action.block,
                           BlockCall(action.calldata, action.fixtureSigner.value, action.gasLimit.value)))
  {
    InBlockOne(action);
    if action.signed.Some? {
      SignedOfOne(action);
    }
    if HostSigned(action) {
      CallsSnoc([], action);
      assert [] + [action] == [action];
      assert Calls([]) == [];
    }
  }

  /**
   * One more move joins its own block in every form the batch has; a form is
   * lost for the whole batch as soon as one move lacks it.
   */
  lemma MovesOfGrows(actions: seq<Action>, action: Action)
    ensures var before, after := MovesOf(actions), MovesOf(actions + [action]);
            && after.calldata == Into(before.calldata, action.block, action.calldata)
            && (after.signed.Some? <==> action.signed.Some? && (actions == [] || before.signed.Some?))
            && (after.signed.Some? ==>
                  after.signed.value == Into(if actions == [] then ([], []) else before.signed.value,
                                             action.block, action.signed.value))
            && (after.blockCalls.Some? <==> HostSigned(action) && (actions == [] || before.blockCalls.Some?))
            && (after.blockCalls.Some? ==>
                  after.blockCalls.value == Into(if actions == [] then ([], []) else before.blockCalls.value, action.block,
                                                 BlockCall(action.calldata, action.fixtureSigner.value, action.gasLimit.value)))
  {
    var all := actions + [action];
    assert all[|actions|] == action && forall i :: 0 <= i < |actions| ==> all[i] == actions[i];
    CalldataGrows(actions, action);
    if actions == [] {
      assert all == [action];
      MovesOfOne(action);
    } else {
      if AllSigned(actions) && action.signed.Some? { SignedGrows(actions, action); }
      if MovesOf(actions).blockCalls.Some? && HostSigned(action) { CallsGrow(actions, action); }
    }
  }

  /** A batch the chain would take next: the following index and block, on the state the chain holds. */
  predicate Follows(onChain: OnChainRoom, c: Continuation) {
    && c.batchIndex - onChain.batchIndex == 1 && c.startL2Block - onChain.l2BlockHeight == 1
    && c.outboxEpoch - onChain.outboxEpoch == 1
    && c.preStateRoot == onChain.stateRoot && c.preParticipantRoot == onChain.participantRoot
    && c.preParticipantEpoch == onChain.participantEpoch && c.preParticipantCount == onChain.participantCount
  }

  /** The continuation asked for is the one batch that follows. */
  lemma OnlyContinuation(onChain: OnChainRoom, c: Continuation)
    ensures c == ContinuationOf(onChain) <==> Follows(onChain, c)
  {
  }

  // ----- The room's proved history

  /** The entry a map built from the log holds for an id: the last action that carries it. */
  function Find(actions: seq<Action>, id: ActionId): (r: Option<Action>)
    ensures r.Some? ==> r.value in actions && r.value.id == id
    ensures r.None? ==> forall a :: a in actions ==> a.id != id
  {
    if actions == [] then None
    else if actions[|actions| - 1].id == id then Some(actions[|actions| - 1])
    else Find(actions[..|actions| - 1], id)
  }

  function AcceptedOf(records: seq<Record>): (r: seq<Record>)
    ensures forall x :: x in r ==> x in records && x.outcome == ACCEPTED
  {
    if records == [] then []
    else
      var last := records[|records| - 1];
      if last.outcome == ACCEPTED then AcceptedOf(records[..|records| - 1]) + [last]
      else AcceptedOf(records[..|records| - 1])
  }

  function InsertBySequence(sorted: seq<Record>, record: Record): seq<Record> {
    if sorted == [] then [record]
    else
      var front, last := sorted[..|sorted| - 1], sorted[|sorted| - 1];
      if last.sequence <= record.sequence then sorted + [record]
      else InsertBySequence(front, record) + [last]
  }

  /** A stable sort by ascending sequence. */
  function SortBySequence(records: seq<Record>): seq<Record> {
    if records == [] then []
    else InsertBySequence(SortBySequence(records[..|records| - 1]), records[|records| - 1])
  }

  type Split = (seq<Envelope>, seq<Envelope>)

  function Push(split: Split, block: Block, envelope: Envelope): Split {
    if block == One then (split.0 + [envelope], split.1) else (split.0, split.1 + [envelope])
  }

  function SplitOf(actions: seq<Action>, sequence: nat, ids: seq<ActionId>): Result<Split, ReplayError> {
    if ids == [] then Ok(([], []))
    else
      var front, id := SplitOf(actions, sequence, ids[..|ids| - 1]), ids[|ids| - 1];
      if front.Err? then front
      else
        var action := Find(actions, id);
        if action.None? then Err(MoveGone(sequence, id))
        else if action.value.signed.None? then Err(MoveUnsigned(sequence, id))
        else Ok(Push(front.value, action.value.block, action.value.signed.value))
  }

  function BlocksOf(actions: seq<Action>, records: seq<Record>): Result<seq<seq<Envelope>>, ReplayError> {
    if records == [] then Ok([])
    else
      var front, last := BlocksOf(actions, records[..|records| - 1]), records[|records| - 1];
      if front.Err? then front
      else
        var split := SplitOf(actions, last.sequence, last.actionIds);
        if split.Err? then Err(split.error)
        else if split.value.0 == [] || split.value.1 == [] then
          Err(BlockLeftEmpty(last.sequence, |split.value.0|, |split.value.1|))
        else Ok(front.value + [split.value.0, split.value.1])
  }

  /** The envelopes of all accepted batches, two blocks each, in order of sequence. */
  function ProvedBlocks(actions: seq<Action>, records: seq<Record>): Result<seq<seq<Envelope>>, ReplayError> {
    BlocksOf(actions, SortBySequence(AcceptedOf(records)))
  }

  lemma {:induction false} SplitErrorSticks(actions: seq<Action>, sequence: nat, ids: seq<ActionId>, k: nat)
    requires k <= |ids| && SplitOf(actions, sequence, ids[..k]).Err?
    ensures SplitOf(actions, sequence, ids) == SplitOf(actions, sequence, ids[..k])
  {
    if k < |ids| {
      assert ids[..|ids| - 1][..k] == ids[..k];
      SplitErrorSticks(actions, sequence, ids[..|ids| - 1], k);
    } else {
      assert ids[..k] == ids;
    }
  }

  lemma {:induction false} BlocksErrorSticks(actions: seq<Action>, records: seq<Record>, k: nat)
    requires k <= |records| && BlocksOf(actions, records[..k]).Err?
    ensures BlocksOf(actions, records) == BlocksOf(actions, records[..k])
  {
    if k < |records| {
      assert records[..|records| - 1][..k] == records[..k];
      BlocksErrorSticks(actions, records[..|records| - 1], k);
    } else {
      assert records[..k] == records;
    }
  }

  /** The loop that rebuilds one record's two blocks. */
  method SplitRecord(actions: seq<Action>, record: Record) returns (r: Result<Split, ReplayError>)
    ensures r == SplitOf(actions, record.sequence, record.actionIds)
  {
    var split: Split := ([], []);
    var i := 0;
    while i < |record.actionIds|
      invariant i <= |record.actionIds|
      invariant SplitOf(actions, record.sequence, record.actionIds[..i]) == Ok(split)
    {
      var id := record.actionIds[i];
      var action := Find(actions, id);
      assert record.actionIds[..i + 1][..i] == record.actionIds[..i];
      if action.None? {
        SplitErrorSticks(actions, record.sequence, record.actionIds, i + 1);
        return Err(MoveGone(record.sequence, id));
      }
      if action.value.signed.None? {
        SplitErrorSticks(actions, record.sequence, record.actionIds, i + 1);
        return Err(MoveUnsigned(record.sequence, id));
      }
      split := Push(split, action.value.block, action.value.signed.value);
      i := i + 1;
    }
    assert record.actionIds[..i] == record.actionIds;
    return Ok(split);
  }

  method ReadProvedBlocks(room: Room) returns (r: Result<seq<seq<Envelope>>, ReplayError>)
    ensures r == ProvedBlocks(room.actions, room.checkpoints)
  {
    var accepted := SortBySequence(AcceptedOf(room.checkpoints));
    var blocks: seq<seq<Envelope>> := [];
    var i := 0;
    while i < |accepted|
      invariant i <= |accepted|
      invariant BlocksOf(room.actions, accepted[..i]) == Ok(blocks)
    {
      assert accepted[..i + 1][..i] == accepted[..i];
      var split := SplitRecord(room.actions, accepted[i]);
      if split.Err? {
        BlocksErrorSticks(room.actions, accepted, i + 1);
        return Err(split.error);
      }
      if split.value.0 == [] || split.value.1 == [] {
        BlocksErrorSticks(room.actions, accepted, i + 1);
        return Err(BlockLeftEmpty(accepted[i].sequence, |split.value.0|, |split.value.1|));
      }
      blocks := blocks + [split.value.0, split.value.1];
      i := i + 1;
    }
    assert accepted[..i] == accepted;
    return Ok(blocks);
  }

  // ----- The request a batch is prepared from

  function ContinuationOf(room: OnChainRoom): Continuation {
    Continuation(room.batchIndex + 1, room.l2BlockHeight + 1, room.stateRoot, room.participantRoot,
                 room.participantEpoch, room.participantCount, room.outboxEpoch + 1)
  }

  /** Nothing to replay for batch one or unsigned moves; else all accepted blocks followed by these two. */
  function ReplayRequest(room: Room, moves: RoomMoves, continuation: Option<Continuation>)
    : Result<Option<ReplayRequestBody>, ReplayError>
  {
    if continuation.None? || continuation.value.batchIndex <= 1 || moves.signed.None? then Ok(None)
    else
      var history := ProvedBlocks(room.actions, room.checkpoints);
      var required := 2 * (continuation.value.batchIndex - 1);
      if history.Err? then Err(history.error)
      else if |history.value| != required then Err(HistoryMismatch(required, |history.value|))
      else
        Ok(Some(ReplayRequestBody(continuation.value.batchIndex,
                                  history.value + [moves.signed.value.0, moves.signed.value.1])))
  }

  /** Only the opening attempt of a room with nothing on the chain is not a continuation. */
  function ContinuationFor(sequence: nat, onChain: OnChainRoom): Option<Continuation> {
    if sequence > 1 || onChain.batchIndex > 0 then Some(ContinuationOf(onChain)) else None
  }

  datatype BatchRequest = BatchRequest(batchIndex: nat, rawTransactions: seq<seq<Envelope>>)

  /**
   * What a checkpoint of signed moves posts to the prover: a continuation once
   * the room has attempted or settled a batch, its own two blocks before that.
   */
  function BatchRequestOf(room: Room, carried: seq<Action>, sequence: nat, onChain: OnChainRoom)
    : Result<BatchRequest, ReplayError>
    requires AllSigned(carried) && carried != []
  {
    var continuation := ContinuationFor(sequence, onChain);
    var moves := MovesOf(carried);
    var replay := ReplayRequest(room, moves, continuation);
    if replay.Err? then Err(replay.error)
    else if replay.value.Some? then Ok(BatchRequest(replay.value.value.batchIndex, replay.value.value.rawTransactions))
    else Ok(BatchRequest(if continuation.Some? then continuation.value.batchIndex else 1,
                         [moves.signed.value.0, moves.signed.value.1]))
  }

  datatype PreparedJournal = PreparedJournal(batchIndex: int, preStateRoot: string)

  /** The prover's journal names the batch and the root the continuation asked for. */
  predicate PreparedMatches(prepared: Option<PreparedJournal>, expected: Option<Continuation>) {
    expected.Some? ==>
      && prepared.Some?
      && prepared.value.batchIndex == expected.value.batchIndex
      && Hex.Lower(prepared.value.preStateRoot) == Hex.Lower(expected.value.preStateRoot)
  }

  // ----- What replay depends on

  predicate Ascending(records: seq<Record>) {
    forall i, j :: 0 <= i < j < |records| ==> records[i].sequence <= records[j].sequence
  }

  lemma {:induction false} InsertPermutes(sorted: seq<Record>, record: Record)
    ensures multiset(InsertBySequence(sorted, record)) == multiset(sorted) + multiset{record}
  {
    if sorted != [] {
      var front, last := sorted[..|sorted| - 1], sorted[|sorted| - 1];
      assert sorted == front + [last];
      InsertPermutes(front, record);
    }
  }

  predicate AtMost(records: seq<Record>, sequence: nat) {
    forall i :: 0 <= i < |records| ==> records[i].sequence <= sequence
  }

  lemma {:induction false} InsertKeepsOrder(sorted: seq<Record>, record: Record, bound: nat)
    requires Ascending(sorted) && AtMost(sorted, bound) && record.sequence <= bound
    ensures Ascending(InsertBySequence(sorted, record)) && AtMost(InsertBySequence(sorted, record), bound)
  {
    if sorted != [] && sorted[|sorted| - 1].sequence > record.sequence {
      InsertKeepsOrder(sorted[..|sorted| - 1], record, sorted[|sorted| - 1].sequence);
    }
  }

  function Highest(records: seq<Record>): (h: nat)
    ensures AtMost(records, h)
  {
    if records == [] then 0
    else
      var front, last := Highest(records[..|records| - 1]), records[|records| - 1].sequence;
      assert forall i :: 0 <= i < |records| - 1 ==> records[i] == records[..|records| - 1][i];
      if last > front then last else front
  }

  /** The sort is a sort: a permutation in ascending sequence. */
  lemma {:induction false} SortSorts(records: seq<Record>)
    ensures multiset(SortBySequence(records)) == multiset(records)
    ensures Ascending(SortBySequence(records))
  {
    if records != [] {
      var front, last := records[..|records| - 1], records[|records| - 1];
      assert records == front + [last];
      SortSorts(front);
      var sorted := SortBySequence(front);
      InsertPermutes(sorted, last);
      var h := Highest(sorted);
      InsertKeepsOrder(sorted, last, if last.sequence > h then last.sequence else h);
    }
  }

  lemma InsertLast(sorted: seq<Record>, record: Record)
    requires sorted == [] || sorted[|sorted| - 1].sequence <= record.sequence
    ensures InsertBySequence(sorted, record) == sorted + [record]
  {
  }

  lemma {:induction false} SortOfSorted(records: seq<Record>)
    requires Ascending(records)
    ensures SortBySequence(records) == records
  {
    if records != [] {
      var front, last := records[..|records| - 1], records[|records| - 1];
      SortOfSorted(front);
      InsertLast(front, last);
      assert records == front + [last];
    }
  }

  lemma {:induction false} AcceptedAscending(records: seq<Record>)
    requires Ascending(records)
    ensures Ascending(AcceptedOf(records))
  {
    if records != [] {
      AcceptedAscending(records[..|records| - 1]);
    }
  }

  /** In a consistent room the sort changes nothing. */
  lemma ProvedBlocksInOrder(actions: seq<Action>, records: seq<Record>)
    requires HistoryInv(records)
    ensures ProvedBlocks(actions, records) == BlocksOf(actions, AcceptedOf(records))
  {
    AcceptedAscending(records);
    SortOfSorted(AcceptedOf(records));
  }

  lemma {:induction false} FindDistinct(actions: seq<Action>, i: nat)
    requires DistinctIds(actions) && i < |actions|
    ensures Find(actions, actions[i].id) == Some(actions[i])
  {
    if i < |actions| - 1 {
      FindDistinct(actions[..|actions| - 1], i);
    }
  }

  /** `after` still holds every signed move of `before`, in the same block with the same envelope. */
  ghost predicate KeepsEnvelopes(before: seq<Action>, after: seq<Action>) {
    forall id :: Find(before, id).Some? && Find(before, id).value.signed.Some? ==>
                   && Find(after, id).Some?
                   && Find(after, id).value.block == Find(before, id).value.block
                   && Find(after, id).value.signed == Find(before, id).value.signed
  }

  lemma {:induction false} SplitMonotone(before: seq<Action>, after: seq<Action>, sequence: nat, ids: seq<ActionId>)
    requires KeepsEnvelopes(before, after) && SplitOf(before, sequence, ids).Ok?
    ensures SplitOf(after, sequence, ids) == SplitOf(before, sequence, ids)
  {
    if ids != [] {
      SplitMonotone(before, after, sequence, ids[..|ids| - 1]);
    }
  }

  lemma {:induction false} BlocksMonotone(before: seq<Action>, after: seq<Action>, records: seq<Record>)
    requires KeepsEnvelopes(before, after) && BlocksOf(before, records).Ok?
    ensures BlocksOf(after, records) == BlocksOf(before, records)
  {
    if records != [] {
      BlocksMonotone(before, after, records[..|records| - 1]);
      SplitMonotone(before, after, records[|records| - 1].sequence, records[|records| - 1].actionIds);
    }
  }

  lemma SplitPush(actions: seq<Action>, sequence: nat, ids: seq<ActionId>, last: Action)
    requires Find(actions, last.id) == Some(last) && last.signed.Some? && SplitOf(actions, sequence, ids).Ok?
    ensures SplitOf(actions, sequence, ids + [last.id])
            == Ok(Push(SplitOf(actions, sequence, ids).value, last.block, last.signed.value))
  {
    assert (ids + [last.id])[..|ids|] == ids;
  }

  /** The ids of a segment of signed moves split into exactly the envelopes that segment sends. */
  lemma {:induction false} SplitOfSegment(actions: seq<Action>, k: nat, n: nat, sequence: nat)
    requires DistinctIds(actions) && k + n <= |actions| && AllSigned(actions[k..k + n])
    ensures SplitOf(actions, sequence, Ids(actions[k..k + n])) == Ok(SignedBlocks(actions[k..k + n]))
  {
    if n > 0 {
      var segment, front, last := actions[k..k + n], actions[k..k + n - 1], actions[k + n - 1];
      assert segment == front + [last] && last == segment[n - 1];
      assert AllSigned(front) by {
        assert forall i :: 0 <= i < n - 1 ==> front[i] == segment[i];
      }
      SplitOfSegment(actions, k, n - 1, sequence);
      FindDistinct(actions, k + n - 1);
      assert Ids(segment) == Ids(front) + [last.id];
      SplitPush(actions, sequence, Ids(front), last);
      EnvelopesAppend(front, last);
    } else {
      assert actions[k..k + n] == [];
    }
  }

  lemma InBlockOne(action: Action)
    ensures InBlock([action], action.block) == [action]
    ensures forall block :: block != action.block ==> InBlock([action], block) == []
  {
    assert [action][1..] == [];
  }

  lemma EnvelopesSnoc(front: seq<Action>, last: Action)
    requires AllSigned(front) && last.signed.Some?
    ensures AllSigned(front + [last])
    ensures Envelopes(front + [last]) == Envelopes(front) + [last.signed.value]
  {
  }

  lemma EnvelopesAppend(front: seq<Action>, last: Action)
    requires AllSigned(front) && last.signed.Some?
    ensures AllSigned(front + [last])
    ensures SignedBlocks(front + [last]) == Push(SignedBlocks(front), last.block, last.signed.value)
  {
    InBlockConcat(front, [last], One);
    InBlockConcat(front, [last], Two);
    InBlockOne(last);
    InBlockIsSubset(front, last.block);
    EnvelopesSnoc(InBlock(front, last.block), last);
    if last.block == One {
      assert InBlock(front, Two) + [] == InBlock(front, Two);
    } else {
      assert InBlock(front, One) + [] == InBlock(front, One);
    }
  }

  lemma AcceptedAppend(records: seq<Record>, record: Record)
    ensures AcceptedOf(records + [record])
            == if record.outcome == ACCEPTED then AcceptedOf(records) + [record] else AcceptedOf(records)
  {
    assert (records + [record])[..|records|] == records;
  }

  lemma BlocksAppend(actions: seq<Action>, records: seq<Record>, record: Record)
    ensures BlocksOf(actions, records + [record])
            == var front, split := BlocksOf(actions, records), SplitOf(actions, record.sequence, record.actionIds);
               if front.Err? then front
               else if split.Err? then Err(split.error)
               else if split.value.0 == [] || split.value.1 == [] then
                 Err(BlockLeftEmpty(record.sequence, |split.value.0|, |split.value.1|))
               else Ok(front.value + [split.value.0, split.value.1])
  {
    assert (records + [record])[..|records|] == records;
  }

  /** A log that grows, is stamped, reopened or signed keeps the envelopes it had. */
  predicate LogExtends(before: seq<Action>, after: seq<Action>) {
    && |before| <= |after|
    && forall i :: 0 <= i < |before| ==>
         && after[i].id == before[i].id
         && after[i].block == before[i].block
         && (before[i].signed.Some? ==> after[i].signed == before[i].signed)
  }

  lemma ExtendingKeepsEnvelopes(before: seq<Action>, after: seq<Action>)
    requires DistinctIds(after) && LogExtends(before, after)
    ensures KeepsEnvelopes(before, after)
  {
    assert DistinctIds(before);
    forall id | Find(before, id).Some?
      ensures exists i :: 0 <= i < |before| && Find(before, id) == Some(before[i]) && Find(after, id) == Some(after[i])
    {
      var i :| 0 <= i < |before| && before[i] == Find(before, id).value;
      FindDistinct(after, i);
    }
  }

  /** One more accepted record adds exactly the two blocks its moves were sent as. */
  lemma AcceptedBlocksAppend(
    before: seq<Action>, after: seq<Action>, records: seq<Record>, record: Record, k: nat, n: nat)
    requires KeepsEnvelopes(before, after) && BlocksOf(before, records).Ok?
    requires DistinctIds(before) && k + n <= |before| && AllSigned(before[k..k + n])
    requires record.actionIds == Ids(before[k..k + n])
    requires InBlock(before[k..k + n], One) != [] && InBlock(before[k..k + n], Two) != []
    ensures var blocks := SignedBlocks(before[k..k + n]);
            BlocksOf(after, records + [record]) == Ok(BlocksOf(before, records).value + [blocks.0, blocks.1])
  {
    BlocksMonotone(before, after, records);
    SplitOfSegment(before, k, n, record.sequence);
    SplitMonotone(before, after, record.sequence, record.actionIds);
    BlocksAppend(after, records, record);
  }

  lemma AcceptedOnCompletion(records: seq<Record>, done: Record)
    requires HistoryInv(records) && HasRunning(records)
    requires done.outcome == ACCEPTED && done.result.Some? && done.sequence == |records|
    ensures HistoryInv(records[|records| - 1 := done])
    ensures AcceptedOf(records[|records| - 1 := done]) == AcceptedOf(records) + [done]
  {
    var last := |records| - 1;
    var front := records[..last];
    assert HistoryInv(records[last := done]) by {
      State.CompletedHistory(records, done);
    }
    assert records == front + [records[last]] && records[last].outcome == RUNNING;
    assert records[last := done] == front + [done];
    AcceptedOfNewest(front, records[last], done);
  }

  lemma AcceptedOfNewest(front: seq<Record>, running: Record, done: Record)
    requires running.outcome == RUNNING && done.outcome == ACCEPTED
    ensures AcceptedOf(front + [done]) == AcceptedOf(front + [running]) + [done]
  {
    AcceptedAppend(front, running);
    AcceptedAppend(front, done);
  }

  /**
   * Acceptance appends, to the history the room replays, exactly the two blocks
   * the attempt's own moves were sent as.
   */
  lemma CompletionAppendsBlocks(actions: seq<Action>, records: seq<Record>, done: Record, k: nat, n: nat)
    requires DistinctIds(actions) && HistoryInv(records) && HasRunning(records)
    requires done.outcome == ACCEPTED && done.result.Some? && done.sequence == |records|
    requires k + n <= |actions| && done.actionIds == Ids(actions[k..k + n])
    requires ProvedBlocks(actions, records).Ok? && AllSigned(actions[k..k + n])
    requires InBlock(actions[k..k + n], One) != [] && InBlock(actions[k..k + n], Two) != []
    ensures ProvedBlocks(State.Stamped(actions, State.IdSet(done.actionIds), done.sequence), records[|records| - 1 := done])
            == Ok(ProvedBlocks(actions, records).value
                  + [SignedBlocks(actions[k..k + n]).0, SignedBlocks(actions[k..k + n]).1])
  {
    var after := State.Stamped(actions, State.IdSet(done.actionIds), done.sequence);
    AcceptedOnCompletion(records, done);
    ProvedBlocksInOrder(actions, records);
    ProvedBlocksInOrder(after, records[|records| - 1 := done]);
    ExtendingKeepsEnvelopes(actions, after);
    AcceptedBlocksAppend(actions, after, AcceptedOf(records), done, k, n);
  }
}
