/**
 * Signing a room's unsigned calls with its fixtures. A nonce is a rank in the
 * whole log, so it does not depend on how the log was cut into signing calls.
 */
module FixtureSigning {
  import opened Wrappers
  import opened RoomModel
  import State = CheckpointState
  import opened Replay

  datatype SigningOptions = SigningOptions(chainId: nat, target: string, defaultSigner: Option<nat>, defaultGas: Option<int>)

  datatype SigningError = NotDeployed | NoSignerOrGas(id: ActionId) | BadGas(id: ActionId) | AbsentFromLog(id: ActionId) | MixedBatch

  function SignerOf(action: Action, options: SigningOptions): Option<nat> {
    if action.fixtureSigner.Some? then action.fixtureSigner else options.defaultSigner
  }

  function GasOf(action: Action, options: SigningOptions): Option<int> {
    if action.gasLimit.Some? then action.gasLimit else options.defaultGas
  }

  /** How many of these moves the signer makes. */
  function Rank(log: seq<Action>, options: SigningOptions, signer: nat): nat {
    if log == [] then 0
    else
      Rank(log[..|log| - 1], options, signer)
      + (if SignerOf(log[|log| - 1], options) == Some(signer) then 1 else 0)
  }

  function FirstIndex(log: seq<Action>, id: ActionId): (r: Option<nat>)
    ensures r.Some? ==> r.value < |log| && log[r.value].id == id && forall i :: 0 <= i < r.value ==> log[i].id != id
    ensures r.None? ==> forall i :: 0 <= i < |log| ==> log[i].id != id
  {
    if log == [] then None
    else if log[0].id == id then Some(0)
    else
      var rest := FirstIndex(log[1..], id);
      assert forall i :: 1 <= i < |log| ==> log[i] == log[1..][i - 1];
      if rest.None? then None else Some(rest.value + 1)
  }

  /** Whether the move at `i` can be signed by its fixture. */
  predicate Signable(action: Action, options: SigningOptions) {
    SignerOf(action, options).Some? && GasOf(action, options).Some? && GasOf(action, options).value > 0
  }

  /** The envelope of the move at `i`: its nonce is its rank among its signer's moves in the whole log. */
  function FixtureEnvelope(log: seq<Action>, options: SigningOptions, i: nat): Envelope
    requires i < |log| && Signable(log[i], options)
  {
    var signer := SignerOf(log[i], options).value;
    Fixture(FixtureTx(signer, options.chainId, Rank(log[..i], options, signer),
                      options.target, log[i].calldata, GasOf(log[i], options).value))
  }

  datatype Signing = Signing(log: seq<Action>, failure: Option<SigningError>)

  function SignOne(log: seq<Action>, options: SigningOptions, id: ActionId): (r: Signing)
    ensures |r.log| == |log|
  {
    var position := FirstIndex(log, id);
    if position.None? then Signing(log, Some(AbsentFromLog(id)))
    else
      var action := log[position.value];
      if action.signed.Some? then Signing(log, None)
      else if SignerOf(action, options).None? || GasOf(action, options).None? then Signing(log, Some(NoSignerOrGas(id)))
      else if GasOf(action, options).value <= 0 then Signing(log, Some(BadGas(id)))
      else
        var signed := action.(signed := Some(FixtureEnvelope(log, options, position.value)));
        Signing(log[position.value := signed], None)
  }

  /** Signs in order and stops at the first refusal, keeping what was signed before it. */
  function SignAll(log: seq<Action>, options: SigningOptions, ids: seq<ActionId>): (r: Signing)
    ensures |r.log| == |log|
  {
    if ids == [] then Signing(log, None)
    else
      var front := SignAll(log, options, ids[..|ids| - 1]);
      if front.failure.Some? then front else SignOne(front.log, options, ids[|ids| - 1])
  }

  lemma {:induction false} SignFailureSticks(log: seq<Action>, options: SigningOptions, ids: seq<ActionId>, k: nat)
    requires k <= |ids| && SignAll(log, options, ids[..k]).failure.Some?
    ensures SignAll(log, options, ids) == SignAll(log, options, ids[..k])
  {
    if k < |ids| {
      assert ids[..|ids| - 1][..k] == ids[..k];
      SignFailureSticks(log, options, ids[..|ids| - 1], k);
    } else {
      assert ids[..k] == ids;
    }
  }

  /** The signing loop, writing envelopes onto the room's own moves. */
  method SignFixtureCheckpointActions(room: State.DemoRoom, ids: seq<ActionId>, options: SigningOptions)
    returns (failure: Option<SigningError>)
    modifies room`actions
    ensures old(room.chainRoomId).None? ==> failure == Some(NotDeployed) && room.View() == old(room.View())
    ensures old(room.chainRoomId).Some? ==>
              && failure == SignAll(old(room.actions), options, ids).failure
              && room.View() == old(room.View()).(actions := SignAll(old(room.actions), options, ids).log)
  {
    if room.chainRoomId.None? {
      return Some(NotDeployed);
    }
    var i := 0;
    while i < |ids|
      invariant i <= |ids|
      invariant SignAll(old(room.actions), options, ids[..i]) == Signing(room.actions, None)
      modifies room`actions
    {
      var step := SignOne(room.actions, options, ids[i]);
      assert ids[..i + 1][..i] == ids[..i];
      room.actions := step.log;
      if step.failure.Some? {
        SignFailureSticks(old(room.actions), options, ids, i + 1);
        return step.failure;
      }
      i := i + 1;
    }
    assert ids[..i] == ids;
    return None;
  }

  /** The shop's wrapper: a batch is signed by its client whole, or by the fixture whole. */
  function SignShopBatch(log: seq<Action>, carried: seq<Action>, options: SigningOptions): Signing {
    var signed := CountSigned(carried);
    if signed > 0 && signed != |carried| then Signing(log, Some(MixedBatch))
    else if signed == |carried| then Signing(log, None)
    else SignAll(log, options, Ids(carried))
  }

  function CountSigned(actions: seq<Action>): (n: nat)
    ensures n <= |actions|
  {
    if actions == [] then 0 else (if actions[0].signed.Some? then 1 else 0) + CountSigned(actions[1..])
  }

  // ----- What signing keeps

  /** Signing writes envelopes and nothing else. */
  predicate OnlySigns(before: seq<Action>, after: seq<Action>) {
    && |before| == |after|
    && forall i :: 0 <= i < |before| ==>
         && after[i] == before[i].(signed := after[i].signed)
         && (before[i].signed.Some? ==> after[i].signed == before[i].signed)
  }

  lemma {:induction false} RankIgnoresSignatures(before: seq<Action>, after: seq<Action>, options: SigningOptions, signer: nat)
    requires |before| == |after|
    requires forall i :: 0 <= i < |before| ==> SignerOf(before[i], options) == SignerOf(after[i], options)
    ensures Rank(before, options, signer) == Rank(after, options, signer)
  {
    if before != [] {
      RankIgnoresSignatures(before[..|before| - 1], after[..|after| - 1], options, signer);
    }
  }

  /**
   * Whatever was signed before and whatever else is signed in the same call, a
   * successful call leaves every move it names signed, each unsigned one with
   * the nonce of its rank in the log, and every other move as it was.
   */
  lemma {:induction false} SignAllIsPointwise(log: seq<Action>, options: SigningOptions, ids: seq<ActionId>)
    requires DistinctIds(log)
    ensures var after := SignAll(log, options, ids).log;
            && OnlySigns(log, after)
            && (forall i :: 0 <= i < |log| && log[i].signed.None? && after[i].signed.Some? ==>
                 log[i].id in ids && Signable(log[i], options) && after[i].signed == Some(FixtureEnvelope(log, options, i)))
            && (SignAll(log, options, ids).failure.None? ==>
                 forall i :: 0 <= i < |log| && log[i].id in ids ==> after[i].signed.Some?)
  {
    if ids != [] {
      var id, front := ids[|ids| - 1], SignAll(log, options, ids[..|ids| - 1]);
      SignAllIsPointwise(log, options, ids[..|ids| - 1]);
      var position := FirstIndex(front.log, id);
      if front.failure.None? && position.Some? && front.log[position.value].signed.None?
         && Signable(front.log[position.value], options) {
        var p := position.value;
        RankIgnoresSignatures(log[..p], front.log[..p], options, SignerOf(log[p], options).value);
      }
    }
  }

  /** The positions before `i` whose move this signer makes: its own index if it has one, the default otherwise. */
  function EarlierMoves(log: seq<Action>, options: SigningOptions, i: nat, signer: nat): set<nat>
    requires i <= |log|
  {
    set j: nat | j < i && (if log[j].fixtureSigner.Some? then log[j].fixtureSigner else options.defaultSigner) == Some(signer)
  }

  lemma {:induction false} RankCountsEarlierMoves(log: seq<Action>, options: SigningOptions, i: nat, signer: nat)
    requires i <= |log|
    ensures Rank(log[..i], options, signer) == |EarlierMoves(log, options, i, signer)|
  {
    if i > 0 {
      RankCountsEarlierMoves(log, options, i - 1, signer);
      assert log[..i][..i - 1] == log[..i - 1];
      var before := EarlierMoves(log, options, i - 1, signer);
      if SignerOf(log[i - 1], options) == Some(signer) {
        assert EarlierMoves(log, options, i, signer) == before + {i - 1};
      } else {
        assert EarlierMoves(log, options, i, signer) == before;
      }
    } else {
      assert EarlierMoves(log, options, 0, signer) == {};
    }
  }

  /** What signing a move means: its own call, sent to the options' contract, from its own fixture at its own place. */
  ghost predicate SignedAsItself(log: seq<Action>, options: SigningOptions, i: nat, envelope: Envelope)
    requires i < |log|
  {
    && envelope.Fixture?
    && envelope.tx.data == log[i].calldata && envelope.tx.to == options.target && envelope.tx.chainId == options.chainId
    && Some(envelope.tx.signer) == (if log[i].fixtureSigner.Some? then log[i].fixtureSigner else options.defaultSigner)
    && Some(envelope.tx.gas) == (if log[i].gasLimit.Some? then log[i].gasLimit else options.defaultGas)
    && envelope.tx.gas > 0
    && envelope.tx.nonce == |EarlierMoves(log, options, i, envelope.tx.signer)|
  }

  /**
   * Every envelope a call writes, whether or not the call goes through, signs
   * the move it is written on and nothing else about that move changes.
   */
  lemma NewEnvelopesSignTheirMoves(log: seq<Action>, options: SigningOptions, ids: seq<ActionId>, i: nat)
    requires DistinctIds(log) && i < |log|
    ensures var after := SignAll(log, options, ids).log[i];
            && after == log[i].(signed := after.signed)
            && (log[i].signed.Some? ==> after.signed == log[i].signed)
            && (log[i].signed.None? && after.signed.Some? ==>
                  log[i].id in ids && SignedAsItself(log, options, i, after.signed.value))
  {
    SignAllIsPointwise(log, options, ids);
    if SignerOf(log[i], options).Some? {
      RankCountsEarlierMoves(log, options, i, SignerOf(log[i], options).value);
    }
  }

  /** In a log whose envelopes are in place, each fixture envelope signs the move it stands on. */
  lemma PlacedEnvelopesSignTheirMoves(log: seq<Action>, options: SigningOptions, i: nat)
    requires NoncesAreRanks(log, options) && i < |log| && log[i].signed.Some? && log[i].signed.value.Fixture?
    ensures SignedAsItself(log, options, i, log[i].signed.value)
  {
    RankCountsEarlierMoves(log, options, i, SignerOf(log[i], options).value);
  }

  // ----- Which calls are refused

  /** Why this log would not let the move be signed. */
  function Refusal(log: seq<Action>, options: SigningOptions, id: ActionId): Option<SigningError> {
    var position := FirstIndex(log, id);
    if position.None? then Some(AbsentFromLog(id))
    else
      var action := log[position.value];
      if action.signed.Some? || Signable(action, options) then None
      else if SignerOf(action, options).None? || GasOf(action, options).None? then Some(NoSignerOrGas(id))
      else Some(BadGas(id))
  }

  function FirstRefusal(log: seq<Action>, options: SigningOptions, ids: seq<ActionId>): Option<SigningError> {
    if ids == [] then None
    else
      var front := FirstRefusal(log, options, ids[..|ids| - 1]);
      if front.Some? then front else Refusal(log, options, ids[|ids| - 1])
  }

  /** What was signed since could be signed before: the same moves are refused, for the same reasons. */
  lemma RefusalUnchanged(log: seq<Action>, after: seq<Action>, options: SigningOptions, id: ActionId)
    requires OnlySigns(log, after)
    requires forall i :: 0 <= i < |log| && log[i].signed.None? && after[i].signed.Some? ==> Signable(log[i], options)
    ensures Refusal(after, options, id) == Refusal(log, options, id)
  {
    var p, q := FirstIndex(log, id), FirstIndex(after, id);
    assert p.None? <==> q.None?;
    assert p.Some? ==> p.value == q.value;
  }

  lemma {:induction false} RefusalsUnchanged(log: seq<Action>, after: seq<Action>, options: SigningOptions, ids: seq<ActionId>)
    requires OnlySigns(log, after)
    requires forall i :: 0 <= i < |log| && log[i].signed.None? && after[i].signed.Some? ==> Signable(log[i], options)
    ensures FirstRefusal(after, options, ids) == FirstRefusal(log, options, ids)
  {
    if ids != [] {
      RefusalsUnchanged(log, after, options, ids[..|ids| - 1]);
      RefusalUnchanged(log, after, options, ids[|ids| - 1]);
    }
  }

  /** Signing as it goes, the loop stops where the log it was given already said it would. */
  lemma {:induction false} SigningStopsAtFirstRefusal(log: seq<Action>, options: SigningOptions, ids: seq<ActionId>)
    requires DistinctIds(log)
    ensures SignAll(log, options, ids).failure == FirstRefusal(log, options, ids)
  {
    if ids != [] {
      var front := SignAll(log, options, ids[..|ids| - 1]);
      SigningStopsAtFirstRefusal(log, options, ids[..|ids| - 1]);
      SignAllIsPointwise(log, options, ids[..|ids| - 1]);
      RefusalUnchanged(log, front.log, options, ids[|ids| - 1]);
    }
  }

  lemma {:induction false} RefusedIffSomeIs(log: seq<Action>, options: SigningOptions, ids: seq<ActionId>)
    ensures FirstRefusal(log, options, ids).Some? <==> exists i :: 0 <= i < |ids| && Refusal(log, options, ids[i]).Some?
  {
    if ids != [] {
      var front := ids[..|ids| - 1];
      RefusedIffSomeIs(log, options, front);
      assert forall i :: 0 <= i < |front| ==> front[i] == ids[i];
    }
  }

  /** Neither signed nor within reach of a fixture. */
  predicate Unsignable(action: Action, options: SigningOptions) {
    action.signed.None? && !Signable(action, options)
  }

  /** Signing moves of the log is refused exactly when one of them has neither an envelope nor a fixture. */
  lemma SigningRefusedIff(log: seq<Action>, options: SigningOptions, batch: seq<Action>)
    requires DistinctIds(log) && forall a :: a in batch ==> a in log
    ensures SignAll(log, options, Ids(batch)).failure.Some? <==> exists a :: a in batch && Unsignable(a, options)
  {
    SigningStopsAtFirstRefusal(log, options, Ids(batch));
    RefusedIffSomeIs(log, options, Ids(batch));
    forall i | 0 <= i < |batch|
      ensures Refusal(log, options, Ids(batch)[i]).Some? <==> Unsignable(batch[i], options)
    {
      var p := FirstIndex(log, batch[i].id);
      assert batch[i] in log;
    }
  }

  /**
   * Whatever earlier calls signed, and wherever they stopped, a call is refused
   * for the reason it would have been at the start, and where neither is
   * refused both leave every move they name the same.
   */
  lemma SplitSigningAgrees(log: seq<Action>, options: SigningOptions, first: seq<ActionId>, second: seq<ActionId>)
    requires DistinctIds(log)
    ensures var midway := SignAll(log, options, first).log;
            && SignAll(midway, options, second).failure == SignAll(log, options, second).failure
            && (SignAll(log, options, second).failure.None? ==>
                 forall i :: 0 <= i < |log| && log[i].id in second ==>
                   SignAll(midway, options, second).log[i] == SignAll(log, options, second).log[i])
  {
    var midway := SignAll(log, options, first).log;
    SignAllIsPointwise(log, options, first);
    assert SignAll(midway, options, second).failure == SignAll(log, options, second).failure by {
      SigningStopsAtFirstRefusal(log, options, second);
      SigningStopsAtFirstRefusal(midway, options, second);
      RefusalsUnchanged(log, midway, options, second);
    }
    if SignAll(log, options, second).failure.None? {
      SuccessesAgree(log, midway, options, second);
    }
  }

  lemma SuccessesAgree(log: seq<Action>, midway: seq<Action>, options: SigningOptions, ids: seq<ActionId>)
    requires DistinctIds(log) && OnlySigns(log, midway)
    requires forall i :: 0 <= i < |log| && log[i].signed.None? && midway[i].signed.Some? ==>
               Signable(log[i], options) && midway[i].signed == Some(FixtureEnvelope(log, options, i))
    requires SignAll(log, options, ids).failure.None? && SignAll(midway, options, ids).failure.None?
    ensures forall i :: 0 <= i < |log| && log[i].id in ids ==>
              SignAll(midway, options, ids).log[i] == SignAll(log, options, ids).log[i]
  {
    SignAllIsPointwise(log, options, ids);
    SignAllIsPointwise(midway, options, ids);
    forall i | 0 <= i < |log| && log[i].id in ids
      ensures SignAll(midway, options, ids).log[i] == SignAll(log, options, ids).log[i]
    {
      if log[i].signed.None? && Signable(log[i], options) {
        RankIgnoresSignatures(log[..i], midway[..i], options, SignerOf(log[i], options).value);
      }
    }
  }

  /** Every fixture envelope in the log is the one its position demands. */
  predicate NoncesAreRanks(log: seq<Action>, options: SigningOptions) {
    forall i :: 0 <= i < |log| && log[i].signed.Some? && log[i].signed.value.Fixture? ==>
      Signable(log[i], options) && log[i].signed.value == FixtureEnvelope(log, options, i)
  }

  lemma SigningKeepsRanks(log: seq<Action>, options: SigningOptions, ids: seq<ActionId>)
    requires DistinctIds(log) && NoncesAreRanks(log, options)
    ensures NoncesAreRanks(SignAll(log, options, ids).log, options)
  {
    var after := SignAll(log, options, ids).log;
    SignAllIsPointwise(log, options, ids);
    forall i | 0 <= i < |log| && Signable(log[i], options)
      ensures FixtureEnvelope(after, options, i) == FixtureEnvelope(log, options, i)
    {
      RankIgnoresSignatures(log[..i], after[..i], options, SignerOf(log[i], options).value);
    }
  }

  /** Ranks survive everything a checkpoint does to the log and every move added after it. */
  lemma GrowthKeepsRanks(log: seq<Action>, after: seq<Action>, options: SigningOptions)
    requires NoncesAreRanks(log, options) && |log| <= |after|
    requires forall i :: 0 <= i < |log| ==> after[i] == log[i].(stamp := after[i].stamp)
    requires forall i :: |log| <= i < |after| ==> after[i].signed.Some? ==> after[i].signed.value.Browser?
    ensures NoncesAreRanks(after, options)
  {
    forall i | 0 <= i < |log| && Signable(log[i], options)
      ensures FixtureEnvelope(after, options, i) == FixtureEnvelope(log, options, i)
    {
      RankIgnoresSignatures(log[..i], after[..i], options, SignerOf(log[i], options).value);
    }
  }

  // ----- The shop's mixed batches

  /** Partly signed by clients and partly not. */
  predicate Mixed(batch: seq<Action>) {
    (exists a :: a in batch && a.signed.Some?) && exists a :: a in batch && a.signed.None?
  }

  lemma {:induction false} CountTells(batch: seq<Action>)
    ensures CountSigned(batch) > 0 <==> exists a :: a in batch && a.signed.Some?
    ensures CountSigned(batch) < |batch| <==> exists a :: a in batch && a.signed.None?
  {
    if batch != [] {
      CountTells(batch[1..]);
      assert forall a :: a in batch <==> a == batch[0] || a in batch[1..];
    }
  }

  /** A shop batch is refused as mixed exactly when it is, and is then left as it was. */
  lemma MixedBatchIff(log: seq<Action>, batch: seq<Action>, options: SigningOptions)
    requires DistinctIds(log)
    ensures SignShopBatch(log, batch, options).failure == Some(MixedBatch) <==> Mixed(batch)
    ensures Mixed(batch) ==> SignShopBatch(log, batch, options).log == log
  {
    CountTells(batch);
    SigningStopsAtFirstRefusal(log, options, Ids(batch));
    NeverMixed(log, options, Ids(batch));
  }

  lemma {:induction false} NeverMixed(log: seq<Action>, options: SigningOptions, ids: seq<ActionId>)
    ensures FirstRefusal(log, options, ids) != Some(MixedBatch)
  {
    if ids != [] {
      NeverMixed(log, options, ids[..|ids| - 1]);
    }
  }

  // ----- The order in which replay shows a signer's nonces

  predicate By(action: Action, signer: nat) {
    action.signed.Some? && action.signed.value.Fixture? && action.signed.value.tx.signer == signer
  }

  /** The signer's nonces, in the order these moves stand. */
  function Nonces(actions: seq<Action>, signer: nat): seq<nat> {
    if actions == [] then []
    else
      (if By(actions[0], signer) then [actions[0].signed.value.tx.nonce] else []) + Nonces(actions[1..], signer)
  }

  /** The signer's nonces, in the order the prover executes these moves: block one, then block two. */
  function BatchNonces(batch: seq<Action>, signer: nat): seq<nat> {
    Nonces(InBlock(batch, One), signer) + Nonces(InBlock(batch, Two), signer)
  }

  /** The signer never plays into block two before playing into block one. */
  predicate BlockOrdered(batch: seq<Action>, signer: nat) {
    batch == [] ||
    (&& BlockOrdered(batch[1..], signer)
     && (By(batch[0], signer) && batch[0].block == Two ==>
           forall a :: a in batch[1..] && By(a, signer) ==> a.block == Two))
  }

  /** Within the batch the signer's nonces climb in log order. */
  predicate Climbing(batch: seq<Action>, signer: nat) {
    batch == [] ||
    (&& Climbing(batch[1..], signer)
     && (By(batch[0], signer) ==>
           forall a :: a in batch[1..] && By(a, signer) ==> batch[0].signed.value.tx.nonce < a.signed.value.tx.nonce))
  }

  lemma NoncesCons(head: Action, rest: seq<Action>, signer: nat)
    ensures Nonces([head] + rest, signer)
            == (if By(head, signer) then [head.signed.value.tx.nonce] else []) + Nonces(rest, signer)
  {
    assert ([head] + rest)[1..] == rest;
  }

  lemma {:induction false} NoncesConcat(a: seq<Action>, b: seq<Action>, signer: nat)
    ensures Nonces(a + b, signer) == Nonces(a, signer) + Nonces(b, signer)
  {
    if a == [] {
      assert a + b == b;
    } else {
      var rest := a[1..];
      NoncesConcat(rest, b, signer);
      assert a == [a[0]] + rest && a + b == [a[0]] + (rest + b);
      HeadNonces(a[0], rest, signer);
      HeadNonces(a[0], rest + b, signer);
      if By(a[0], signer) {
        Reassociate([a[0].signed.value.tx.nonce], Nonces(rest, signer), Nonces(b, signer));
      }
    }
  }

  lemma {:induction false} NoncesAbove(actions: seq<Action>, signer: nat, bound: nat)
    requires forall a :: a in actions && By(a, signer) ==> bound < a.signed.value.tx.nonce
    ensures forall k :: 0 <= k < |Nonces(actions, signer)| ==> bound < Nonces(actions, signer)[k]
  {
    if actions != [] {
      NoncesAbove(actions[1..], signer, bound);
    }
  }

  /** What the first move of a batch adds to the replayed order. */
  lemma ReplayHead(batch: seq<Action>, signer: nat)
    requires batch != []
    ensures var ones, twos := Nonces(InBlock(batch[1..], One), signer), Nonces(InBlock(batch[1..], Two), signer);
            BatchNonces(batch, signer)
            == if !By(batch[0], signer) then ones + twos
               else if batch[0].block == One then [batch[0].signed.value.tx.nonce] + ones + twos
               else ones + [batch[0].signed.value.tx.nonce] + twos
  {
    InBlockHead(batch, One);
    InBlockHead(batch, Two);
    var one, two := InBlock(batch[1..], One), InBlock(batch[1..], Two);
    if batch[0].block == One {
      HeadNonces(batch[0], one, signer);
    } else {
      HeadNonces(batch[0], two, signer);
      if By(batch[0], signer) {
        Reassociate(Nonces(one, signer), [batch[0].signed.value.tx.nonce], Nonces(two, signer));
      }
    }
  }

  lemma HeadNonces(head: Action, rest: seq<Action>, signer: nat)
    ensures Nonces([head] + rest, signer)
            == if By(head, signer) then [head.signed.value.tx.nonce] + Nonces(rest, signer) else Nonces(rest, signer)
  {
    NoncesCons(head, rest, signer);
    assert [] + Nonces(rest, signer) == Nonces(rest, signer);
  }

  lemma Reassociate(a: seq<nat>, b: seq<nat>, c: seq<nat>)
    ensures a + (b + c) == a + b + c
  {
  }

  lemma {:induction false} ReplayLength(batch: seq<Action>, signer: nat)
    ensures |BatchNonces(batch, signer)| == |Nonces(batch, signer)|
  {
    if batch != [] {
      ReplayLength(batch[1..], signer);
      ReplayHead(batch, signer);
    }
  }

  lemma {:induction false} NoOnes(actions: seq<Action>, signer: nat)
    ensures Nonces(InBlock(actions, One), signer) == []
            <==> forall a :: a in actions && By(a, signer) ==> a.block == Two
    ensures Nonces(InBlock(actions, One), signer) == [] ==>
              Nonces(InBlock(actions, Two), signer) == Nonces(actions, signer)
  {
    if actions != [] {
      NoOnes(actions[1..], signer);
      InBlockHead(actions, One);
      InBlockHead(actions, Two);
      NoncesCons(actions[0], InBlock(actions[1..], actions[0].block), signer);
      assert forall a :: a in actions <==> a == actions[0] || a in actions[1..];
    }
  }

  /** One more envelope in front of block one: the replay grows at its front, as the log does. */
  lemma FrontOne(n: nat, ones: seq<nat>, twos: seq<nat>, log: seq<nat>)
    ensures [n] + ones + twos == [n] + log <==> ones + twos == log
  {
    assert [n] + ones + twos == [n] + (ones + twos);
    assert ([n] + (ones + twos))[1..] == ones + twos;
    assert ([n] + log)[1..] == log;
  }

  /** One more envelope in front of block two keeps the log's order only if block one is empty. */
  lemma FrontTwo(n: nat, ones: seq<nat>, twos: seq<nat>, log: seq<nat>)
    requires ones != [] ==> ones[0] != n
    ensures ones + [n] + twos == [n] + log <==> ones == [] && twos == log
  {
    if ones == [] {
      assert ones + [n] + twos == [n] + twos;
      assert ([n] + twos)[1..] == twos && ([n] + log)[1..] == log;
    } else {
      assert (ones + [n] + twos)[0] == ones[0];
    }
  }

  /** A batch replays a signer's nonces in log order exactly when it keeps that signer's blocks in order. */
  lemma {:induction false} ReplayOrderIff(batch: seq<Action>, signer: nat)
    requires Climbing(batch, signer)
    ensures BatchNonces(batch, signer) == Nonces(batch, signer) <==> BlockOrdered(batch, signer)
  {
    if batch != [] {
      var tail := batch[1..];
      var ones, twos := Nonces(InBlock(tail, One), signer), Nonces(InBlock(tail, Two), signer);
      ReplayOrderIff(tail, signer);
      ReplayHead(batch, signer);
      if By(batch[0], signer) {
        var n := batch[0].signed.value.tx.nonce;
        if batch[0].block == One {
          FrontOne(n, ones, twos, Nonces(tail, signer));
        } else {
          NoOnes(tail, signer);
          InBlockIsSubset(tail, One);
          NoncesAbove(InBlock(tail, One), signer, n);
          FrontTwo(n, ones, twos, Nonces(tail, signer));
        }
      }
    }
  }
}
