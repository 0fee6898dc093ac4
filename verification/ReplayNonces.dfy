/** The nonces the prover sees when it replays a fixture-signed room from its first block. */
module ReplayNonces {
  import opened Wrappers
  import opened RoomModel
  import opened Replay
  import opened FixtureSigning
  import opened RoomRuns

  function EnvelopeNonces(block: seq<Envelope>, signer: nat): seq<nat> {
    if block == [] then []
    else
      (if block[0].Fixture? && block[0].tx.signer == signer then [block[0].tx.nonce] else [])
      + EnvelopeNonces(block[1..], signer)
  }

  /** A signer's nonces over the replayed blocks, oldest block first. */
  function ShownNonces(blocks: seq<seq<Envelope>>, signer: nat): seq<nat> {
    if blocks == [] then []
    else ShownNonces(blocks[..|blocks| - 1], signer) + EnvelopeNonces(blocks[|blocks| - 1], signer)
  }

  function Iota(n: nat): (r: seq<nat>)
    ensures |r| == n
  {
    seq(n, i requires 0 <= i < n => i)
  }

  /** The moves each accepted attempt carried, attempt after attempt. */
  function AcceptedSegments(actions: seq<Action>, records: seq<Record>): seq<seq<Action>>
    requires |Carried(records)| <= |actions|
  {
    if records == [] then []
    else
      var front, last := records[..|records| - 1], records[|records| - 1];
      if last.outcome == ACCEPTED
      then AcceptedSegments(actions, front) + [actions[|Carried(front)|..|Carried(records)|]]
      else AcceptedSegments(actions, front)
  }

  function Concat(segments: seq<seq<Action>>): seq<Action> {
    if segments == [] then [] else Concat(segments[..|segments| - 1]) + segments[|segments| - 1]
  }

  function ReplayAll(segments: seq<seq<Action>>, signer: nat): seq<nat> {
    if segments == [] then []
    else ReplayAll(segments[..|segments| - 1], signer) + BatchNonces(segments[|segments| - 1], signer)
  }

  predicate AllOrdered(segments: seq<seq<Action>>, signer: nat) {
    forall i :: 0 <= i < |segments| ==> BlockOrdered(segments[i], signer)
  }

  lemma {:induction false} EnvelopeNoncesOf(actions: seq<Action>, signer: nat)
    requires AllSigned(actions)
    ensures EnvelopeNonces(Envelopes(actions), signer) == Nonces(actions, signer)
  {
    if actions != [] {
      EnvelopeNoncesOf(actions[1..], signer);
      assert Envelopes(actions)[1..] == Envelopes(actions[1..]);
    }
  }

  lemma ShownAppend(blocks: seq<seq<Envelope>>, a: seq<Envelope>, b: seq<Envelope>, signer: nat)
    ensures ShownNonces(blocks + [a, b], signer)
            == ShownNonces(blocks, signer) + (EnvelopeNonces(a, signer) + EnvelopeNonces(b, signer))
  {
    assert (blocks + [a, b])[..|blocks| + 1] == blocks + [a];
    assert (blocks + [a])[..|blocks|] == blocks;
  }

  lemma ShownBatch(blocks: seq<seq<Envelope>>, batch: seq<Action>, signer: nat)
    requires AllSigned(batch)
    ensures ShownNonces(blocks + [SignedBlocks(batch).0, SignedBlocks(batch).1], signer)
            == ShownNonces(blocks, signer) + BatchNonces(batch, signer)
  {
    ShownAppend(blocks, SignedBlocks(batch).0, SignedBlocks(batch).1, signer);
    InBlockIsSubset(batch, One);
    InBlockIsSubset(batch, Two);
    EnvelopeNoncesOf(InBlock(batch, One), signer);
    EnvelopeNoncesOf(InBlock(batch, Two), signer);
  }

  lemma {:induction false} SplitOkMeansSigned(actions: seq<Action>, k: nat, n: nat, sequence: nat)
    requires DistinctIds(actions) && k + n <= |actions|
    requires SplitOf(actions, sequence, Ids(actions[k..k + n])).Ok?
    ensures AllSigned(actions[k..k + n])
  {
    if n > 0 {
      var ids := Ids(actions[k..k + n]);
      assert ids[..n - 1] == Ids(actions[k..k + n - 1]);
      SplitOkMeansSigned(actions, k, n - 1, sequence);
      FindDistinct(actions, k + n - 1);
      assert actions[k..k + n] == actions[k..k + n - 1] + [actions[k + n - 1]];
    }
  }

  predicate PrefixIds(actions: seq<Action>, carried: seq<(ActionId, nat)>) {
    |carried| <= |actions| && forall i :: 0 <= i < |carried| ==> actions[i].id == carried[i].0
  }

  lemma PrefixIdsShrink(actions: seq<Action>, carried: seq<(ActionId, nat)>, fewer: seq<(ActionId, nat)>)
    requires PrefixIds(actions, carried) && |fewer| <= |carried| && carried[..|fewer|] == fewer
    ensures PrefixIds(actions, fewer)
  {
    assert forall i :: 0 <= i < |fewer| ==> fewer[i] == carried[i];
  }

  lemma AcceptedIds(actions: seq<Action>, front: seq<Record>, last: Record)
    requires last.outcome == ACCEPTED && PrefixIds(actions, Carried(front + [last]))
    ensures |Carried(front + [last])| == |Carried(front)| + |last.actionIds|
    ensures last.actionIds == Ids(actions[|Carried(front)|..|Carried(front)| + |last.actionIds|])
  {
    var k := |Carried(front)|;
    CarriedAppend(front, last);
    forall i | 0 <= i < |last.actionIds|
      ensures last.actionIds[i] == actions[k + i].id
    {
      assert Carried(front + [last])[k + i] == Carriage(last)[i];
    }
  }

  lemma {:induction false} SegmentsTileLog(actions: seq<Action>, records: seq<Record>)
    requires |Carried(records)| <= |actions|
    ensures Concat(AcceptedSegments(actions, records)) == actions[..|Carried(records)|]
  {
    if records != [] {
      var front, last := records[..|records| - 1], records[|records| - 1];
      SegmentsTileLog(actions, front);
      if last.outcome == ACCEPTED {
        var segment := actions[|Carried(front)|..|Carried(records)|];
        ConcatAppend(AcceptedSegments(actions, front), segment, 0);
        assert actions[..|Carried(front)|] + segment == actions[..|Carried(records)|];
      }
    }
  }

  /** One more accepted record shows its own segment, block one before block two. */
  lemma ShownStep(actions: seq<Action>, accepted: seq<Record>, last: Record, k: nat, n: nat, signer: nat)
    requires DistinctIds(actions) && k + n <= |actions| && last.actionIds == Ids(actions[k..k + n])
    requires BlocksOf(actions, accepted + [last]).Ok?
    ensures BlocksOf(actions, accepted).Ok?
    ensures ShownNonces(BlocksOf(actions, accepted + [last]).value, signer)
            == ShownNonces(BlocksOf(actions, accepted).value, signer) + BatchNonces(actions[k..k + n], signer)
  {
    BlocksAppend(actions, accepted, last);
    SplitOkMeansSigned(actions, k, n, last.sequence);
    SplitOfSegment(actions, k, n, last.sequence);
    ShownBatch(BlocksOf(actions, accepted).value, actions[k..k + n], signer);
  }

  lemma NewestPrefix(actions: seq<Action>, front: seq<Record>, last: Record)
    requires PrefixIds(actions, Carried(front + [last]))
    ensures PrefixIds(actions, Carried(front))
  {
    CarriedSplit(front + [last], |front|);
    assert (front + [last])[..|front|] == front;
    PrefixIdsShrink(actions, Carried(front + [last]), Carried(front));
  }

  /** What the newest accepted record adds to the shown nonces is its own segment. */
  lemma NewestShows(actions: seq<Action>, front: seq<Record>, last: Record, signer: nat)
    requires DistinctIds(actions) && last.outcome == ACCEPTED && PrefixIds(actions, Carried(front + [last]))
    requires BlocksOf(actions, AcceptedOf(front) + [last]).Ok?
    ensures BlocksOf(actions, AcceptedOf(front)).Ok?
    ensures |Carried(front)| <= |Carried(front + [last])| <= |actions|
    ensures ShownNonces(BlocksOf(actions, AcceptedOf(front) + [last]).value, signer)
            == ShownNonces(BlocksOf(actions, AcceptedOf(front)).value, signer)
               + BatchNonces(actions[|Carried(front)|..|Carried(front + [last])|], signer)
  {
    AcceptedIds(actions, front, last);
    ShownStep(actions, AcceptedOf(front), last, |Carried(front)|, |last.actionIds|, signer);
  }

  lemma SegmentsPush(actions: seq<Action>, front: seq<Record>, last: Record, signer: nat)
    requires last.outcome == ACCEPTED && |Carried(front)| <= |Carried(front + [last])| <= |actions|
    ensures ReplayAll(AcceptedSegments(actions, front + [last]), signer)
            == ReplayAll(AcceptedSegments(actions, front), signer)
               + BatchNonces(actions[|Carried(front)|..|Carried(front + [last])|], signer)
  {
    assert (front + [last])[..|front|] == front;
    ConcatAppend(AcceptedSegments(actions, front), actions[|Carried(front)|..|Carried(front + [last])|], signer);
  }

  /** The replayed history shows, batch by batch, the accepted segments of the log. */
  lemma {:induction false} HistoryShowsSegments(actions: seq<Action>, records: seq<Record>, signer: nat)
    requires DistinctIds(actions) && PrefixIds(actions, Carried(records))
    requires BlocksOf(actions, AcceptedOf(records)).Ok?
    ensures ShownNonces(BlocksOf(actions, AcceptedOf(records)).value, signer)
            == ReplayAll(AcceptedSegments(actions, records), signer)
  {
    if records != [] {
      var front, last := records[..|records| - 1], records[|records| - 1];
      assert records == front + [last];
      NewestPrefix(actions, front, last);
      AcceptedAppend(front, last);
      if last.outcome == ACCEPTED {
        NewestShows(actions, front, last, signer);
        SegmentsPush(actions, front, last, signer);
      }
      HistoryShowsSegments(actions, front, signer);
    }
  }

  lemma ConcatAppend(segments: seq<seq<Action>>, segment: seq<Action>, signer: nat)
    ensures Concat(segments + [segment]) == Concat(segments) + segment
    ensures ReplayAll(segments + [segment], signer) == ReplayAll(segments, signer) + BatchNonces(segment, signer)
  {
    assert (segments + [segment])[..|segments|] == segments;
  }

  // ----- The log's own nonces

  /** Signed by a client, whichever signer the log counts the move for. */
  predicate FromClient(action: Action) {
    action.signed.Some? && action.signed.value.Browser?
  }

  /** After a client has signed a move counted for the signer, the fixture signs none of that signer's later ones. */
  predicate ClientsLast(log: seq<Action>, options: SigningOptions, signer: nat) {
    forall i, j :: 0 <= i < j < |log| && SignerOf(log[i], options) == SignerOf(log[j], options) == Some(signer) ==>
      (FromClient(log[i]) ==> FromClient(log[j]))
  }

  /** Every counted move before one the fixture signed was signed by it too. */
  predicate NoneSkipped(log: seq<Action>, options: SigningOptions, signer: nat) {
    forall i, j :: 0 <= i < j < |log| && SignerOf(log[i], options) == Some(signer) && By(log[j], signer) ==> By(log[i], signer)
  }

  lemma SkippedByClients(log: seq<Action>, options: SigningOptions, m: nat, signer: nat)
    requires NoncesAreRanks(log, options) && m <= |log| && AllSigned(log[..m])
    ensures NoneSkipped(log[..m], options, signer) <==> ClientsLast(log[..m], options, signer)
  {
    forall i | 0 <= i < m
      ensures By(log[..m][i], signer) <==> SignerOf(log[..m][i], options) == Some(signer) && !FromClient(log[..m][i])
    {
      assert log[..m][i] == log[i];
    }
  }

  lemma NoncesSnoc(front: seq<Action>, last: Action, signer: nat)
    ensures Nonces(front + [last], signer)
            == Nonces(front, signer) + (if By(last, signer) then [last.signed.value.tx.nonce] else [])
  {
    NoncesConcat(front, [last], signer);
    NoncesCons(last, [], signer);
    assert [last] + [] == [last];
  }

  /** A signer's envelopes are at most the moves counted for it, and as many exactly when its fixture signed them all. */
  lemma {:induction false} RankBoundsNonces(log: seq<Action>, options: SigningOptions, m: nat, signer: nat)
    requires NoncesAreRanks(log, options) && m <= |log|
    ensures |Nonces(log[..m], signer)| <= Rank(log[..m], options, signer)
    ensures |Nonces(log[..m], signer)| == Rank(log[..m], options, signer)
            <==> forall i :: 0 <= i < m && SignerOf(log[i], options) == Some(signer) ==> By(log[i], signer)
  {
    if m > 0 {
      assert log[..m] == log[..m - 1] + [log[m - 1]] && log[..m][..m - 1] == log[..m - 1];
      RankBoundsNonces(log, options, m - 1, signer);
      NoncesSnoc(log[..m - 1], log[m - 1], signer);
    }
  }

  lemma IotaPush(s: seq<nat>, last: nat)
    ensures s + [last] == Iota(|s| + 1) <==> s == Iota(|s|) && last == |s|
  {
    assert Iota(|s| + 1) == Iota(|s|) + [|s|];
    assert (s + [last])[..|s|] == s && Iota(|s| + 1)[..|s|] == Iota(|s|);
    assert (s + [last])[|s|] == last;
  }

  lemma NoneSkippedPush(log: seq<Action>, options: SigningOptions, m: nat, signer: nat)
    requires 0 < m <= |log|
    ensures NoneSkipped(log[..m], options, signer)
            <==> && NoneSkipped(log[..m - 1], options, signer)
                 && (By(log[m - 1], signer) ==>
                       forall i :: 0 <= i < m - 1 && SignerOf(log[i], options) == Some(signer) ==> By(log[i], signer))
  {
    var shorter, longer := log[..m - 1], log[..m];
    assert forall i :: 0 <= i < m - 1 ==> shorter[i] == longer[i] == log[i];
    assert longer[m - 1] == log[m - 1];
  }

  /** In log order the nonces have no gap exactly when no counted move was skipped. */
  lemma {:induction false} LogNoncesAreIotaIff(log: seq<Action>, options: SigningOptions, m: nat, signer: nat)
    requires NoncesAreRanks(log, options) && m <= |log|
    ensures Nonces(log[..m], signer) == Iota(|Nonces(log[..m], signer)|) <==> NoneSkipped(log[..m], options, signer)
  {
    if m > 0 {
      var last, front := log[m - 1], Nonces(log[..m - 1], signer);
      assert log[..m] == log[..m - 1] + [last];
      LogNoncesAreIotaIff(log, options, m - 1, signer);
      NoneSkippedPush(log, options, m, signer);
      NoncesSnoc(log[..m - 1], last, signer);
      if By(last, signer) {
        RankBoundsNonces(log, options, m - 1, signer);
        IotaPush(front, last.signed.value.tx.nonce);
      } else {
        assert Nonces(log[..m], signer) == front;
      }
    } else {
      assert log[..0] == [];
    }
  }

  // ----- From the shown order back to the log's

  predicate Strict(s: seq<nat>) {
    forall i, j :: 0 <= i < j < |s| ==> s[i] < s[j]
  }

  lemma {:induction false} ClimbingIsStrict(batch: seq<Action>, signer: nat)
    requires Climbing(batch, signer)
    ensures Strict(Nonces(batch, signer))
  {
    if batch != [] {
      ClimbingIsStrict(batch[1..], signer);
      assert batch == [batch[0]] + batch[1..];
      NoncesCons(batch[0], batch[1..], signer);
      if By(batch[0], signer) {
        NoncesAbove(batch[1..], signer, batch[0].signed.value.tx.nonce);
      }
    }
  }

  lemma {:induction false} StrictIsAtLeastIndex(s: seq<nat>, k: nat)
    requires Strict(s) && k < |s|
    ensures s[k] >= k
  {
    if k > 0 {
      StrictIsAtLeastIndex(s, k - 1);
    }
  }

  lemma {:induction false} StrictIsAtMostIndex(s: seq<nat>, k: nat)
    requires Strict(s) && k < |s| && forall i :: 0 <= i < |s| ==> s[i] < |s|
    ensures s[k] <= k
    decreases |s| - k
  {
    if k < |s| - 1 {
      StrictIsAtMostIndex(s, k + 1);
    }
  }

  /** Climbing numbers, all below their count, are 0, 1, 2, ... */
  lemma StrictIsIota(s: seq<nat>)
    requires Strict(s) && forall i :: 0 <= i < |s| ==> s[i] < |s|
    ensures s == Iota(|s|)
  {
    forall k | 0 <= k < |s| ensures s[k] == k {
      StrictIsAtLeastIndex(s, k);
      StrictIsAtMostIndex(s, k);
    }
  }

  lemma {:induction false} BatchShowsItsNonces(batch: seq<Action>, signer: nat)
    ensures forall x :: x in Nonces(batch, signer) ==> x in BatchNonces(batch, signer)
  {
    if batch != [] {
      BatchShowsItsNonces(batch[1..], signer);
      ReplayHead(batch, signer);
      assert batch == [batch[0]] + batch[1..];
      NoncesCons(batch[0], batch[1..], signer);
    }
  }

  lemma {:induction false} EveryNonceIsShown(segments: seq<seq<Action>>, signer: nat)
    ensures forall x :: x in Nonces(Concat(segments), signer) ==> x in ReplayAll(segments, signer)
  {
    if segments != [] {
      var front, last := segments[..|segments| - 1], segments[|segments| - 1];
      EveryNonceIsShown(front, signer);
      BatchShowsItsNonces(last, signer);
      NoncesConcat(Concat(front), last, signer);
    }
  }

  lemma {:induction false} RankMonotone(log: seq<Action>, options: SigningOptions, i: nat, j: nat, signer: nat)
    requires i <= j <= |log|
    ensures Rank(log[..i], options, signer) <= Rank(log[..j], options, signer)
  {
    if i < j {
      RankMonotone(log, options, i, j - 1, signer);
      assert log[..j][..j - 1] == log[..j - 1];
    }
  }

  /** Ranks climb, so in every stretch of the log a signer's nonces climb. */
  lemma {:induction false} RanksClimb(log: seq<Action>, options: SigningOptions, i: nat, j: nat, signer: nat)
    requires NoncesAreRanks(log, options) && i <= j <= |log|
    ensures Climbing(log[i..j], signer)
    decreases j - i
  {
    if i < j {
      RanksClimb(log, options, i + 1, j, signer);
      assert log[i..j][1..] == log[i + 1..j];
      forall a | a in log[i + 1..j] && By(a, signer) && By(log[i], signer)
        ensures log[i].signed.value.tx.nonce < a.signed.value.tx.nonce
      {
        var p :| i + 1 <= p < j && log[p] == a;
        assert log[..i + 1][..i] == log[..i];
        RankMonotone(log, options, i + 1, p, signer);
      }
    }
  }

  lemma {:induction false} SegmentsOrderIff(segments: seq<seq<Action>>, signer: nat)
    requires forall i :: 0 <= i < |segments| ==> Climbing(segments[i], signer)
    ensures |ReplayAll(segments, signer)| == |Nonces(Concat(segments), signer)|
    ensures ReplayAll(segments, signer) == Nonces(Concat(segments), signer) <==> AllOrdered(segments, signer)
  {
    if segments != [] {
      var front, last := segments[..|segments| - 1], segments[|segments| - 1];
      SegmentsOrderIff(front, signer);
      ReplayOrderIff(last, signer);
      ReplayLength(last, signer);
      NoncesConcat(Concat(front), last, signer);
      var a, b := ReplayAll(front, signer), BatchNonces(last, signer);
      var c, d := Nonces(Concat(front), signer), Nonces(last, signer);
      assert a + b == c + d <==> a == c && b == d by {
        if a + b == c + d {
          assert a == (a + b)[..|a|] && c == (c + d)[..|c|];
          assert b == (a + b)[|a|..] && d == (c + d)[|c|..];
        }
      }
      assert AllOrdered(segments, signer) <==> AllOrdered(front, signer) && BlockOrdered(last, signer) by {
        assert forall i :: 0 <= i < |front| ==> segments[i] == front[i];
      }
    }
  }

  lemma {:induction false} SegmentsClimb(actions: seq<Action>, records: seq<Record>, options: SigningOptions, signer: nat)
    requires NoncesAreRanks(actions, options) && |Carried(records)| <= |actions|
    ensures forall i :: 0 <= i < |AcceptedSegments(actions, records)| ==>
              Climbing(AcceptedSegments(actions, records)[i], signer)
  {
    if records != [] {
      var front := records[..|records| - 1];
      SegmentsClimb(actions, front, options, signer);
      if records[|records| - 1].outcome == ACCEPTED {
        RanksClimb(actions, options, |Carried(front)|, |Carried(records)|, signer);
      }
    }
  }

  /** The batches a prepared request replays, its own last. */
  function Batches(w: World): seq<seq<Action>>
    requires Inv(w) && w.attempt.Some?
  {
    AcceptedSegments(w.room.actions, w.room.checkpoints)
    + [Segment(w.room.actions, w.room.checkpoints, |w.attempt.value.carried|)]
  }

  lemma RequestIsHistoryPlusSegment(w: World)
    requires Inv(w) && w.attempt.Some? && w.attempt.value.stage != Queued
    ensures var actions, records := w.room.actions, w.room.checkpoints;
            var segment := Segment(actions, records, |w.attempt.value.carried|);
            && DistinctIds(actions) && PrefixIds(actions, Carried(records))
            && BlocksOf(actions, AcceptedOf(records)).Ok? && AllSigned(segment)
            && w.attempt.value.stage.request.rawTransactions
               == BlocksOf(actions, AcceptedOf(records)).value + [SignedBlocks(segment).0, SignedBlocks(segment).1]
  {
    ProvedBlocksInOrder(w.room.actions, w.room.checkpoints);
  }

  lemma RequestShowsBatches(w: World, signer: nat)
    requires Inv(w) && w.attempt.Some? && w.attempt.value.stage != Queued
    ensures ShownNonces(w.attempt.value.stage.request.rawTransactions, signer) == ReplayAll(Batches(w), signer)
  {
    RequestIsHistoryPlusSegment(w);
    BatchesShown(w.room.actions, w.room.checkpoints, |w.attempt.value.carried|, signer);
  }

  lemma BatchesShown(actions: seq<Action>, records: seq<Record>, n: nat, signer: nat)
    requires DistinctIds(actions) && PrefixIds(actions, Carried(records)) && |Carried(records)| + n <= |actions|
    requires BlocksOf(actions, AcceptedOf(records)).Ok? && AllSigned(Segment(actions, records, n))
    ensures var segment := Segment(actions, records, n);
            var batches := AcceptedSegments(actions, records) + [segment];
            ShownNonces(BlocksOf(actions, AcceptedOf(records)).value + [SignedBlocks(segment).0, SignedBlocks(segment).1], signer)
            == ReplayAll(batches, signer)
  {
    var segment := Segment(actions, records, n);
    var history, segments := BlocksOf(actions, AcceptedOf(records)).value, AcceptedSegments(actions, records);
    assert ShownNonces(history, signer) == ReplayAll(segments, signer) by {
      HistoryShowsSegments(actions, records, signer);
    }
    ShownBatch(history, segment, signer);
    ConcatAppend(segments, segment, signer);
  }

  lemma BatchesClimb(actions: seq<Action>, records: seq<Record>, n: nat, options: SigningOptions, signer: nat)
    requires NoncesAreRanks(actions, options) && |Carried(records)| + n <= |actions|
    ensures var batches := AcceptedSegments(actions, records) + [Segment(actions, records, n)];
            forall i :: 0 <= i < |batches| ==> Climbing(batches[i], signer)
  {
    SegmentsClimb(actions, records, options, signer);
    RanksClimb(actions, options, |Carried(records)|, |Carried(records)| + n, signer);
  }

  /** How many moves of the log the posted request replays. */
  function Replayed(w: World): nat
    requires w.attempt.Some?
  {
    |Carried(w.room.checkpoints)| + |w.attempt.value.carried|
  }

  /** The posted request shows the signer's nonces as 0, 1, 2, ... without a gap. */
  predicate ShowsNoncesInOrder(w: World, signer: nat)
    requires w.attempt.Some? && w.attempt.value.stage != Queued
  {
    var shown := ShownNonces(w.attempt.value.stage.request.rawTransactions, signer);
    shown == Iota(|shown|)
  }

  lemma OrderOfSegments(log: seq<Action>, options: SigningOptions, m: nat, segments: seq<seq<Action>>, signer: nat)
    requires NoncesAreRanks(log, options) && m <= |log| && Concat(segments) == log[..m]
    requires forall i :: 0 <= i < |segments| ==> Climbing(segments[i], signer)
    ensures ReplayAll(segments, signer) == Iota(|ReplayAll(segments, signer)|)
            <==> AllOrdered(segments, signer) && NoneSkipped(log[..m], options, signer)
  {
    var shown, logged := ReplayAll(segments, signer), Nonces(log[..m], signer);
    SegmentsOrderIff(segments, signer);
    LogNoncesAreIotaIff(log, options, m, signer);
    if shown == Iota(|shown|) {
      assert logged == Iota(|logged|) by {
        EveryNonceIsShown(segments, signer);
        RanksClimb(log, options, 0, m, signer);
        assert log[0..m] == log[..m];
        ClimbingIsStrict(log[..m], signer);
        forall i | 0 <= i < |logged| ensures logged[i] < |logged| {
          assert logged[i] in shown;
        }
        StrictIsIota(logged);
      }
    }
  }

  lemma AcceptedSegmentIsSigned(actions: seq<Action>, accepted: seq<Record>, last: Record, k: nat, n: nat)
    requires DistinctIds(actions) && k + n <= |actions| && last.actionIds == Ids(actions[k..k + n])
    requires BlocksOf(actions, accepted + [last]).Ok?
    ensures BlocksOf(actions, accepted).Ok? && AllSigned(actions[k..k + n])
  {
    BlocksAppend(actions, accepted, last);
    SplitOkMeansSigned(actions, k, n, last.sequence);
  }

  lemma NewestIsSigned(actions: seq<Action>, front: seq<Record>, last: Record)
    requires DistinctIds(actions) && last.outcome == ACCEPTED && PrefixIds(actions, Carried(front + [last]))
    requires BlocksOf(actions, AcceptedOf(front) + [last]).Ok?
    ensures BlocksOf(actions, AcceptedOf(front)).Ok?
    ensures |Carried(front)| <= |Carried(front + [last])| <= |actions|
    ensures AllSigned(actions[|Carried(front)|..|Carried(front + [last])|])
  {
    AcceptedIds(actions, front, last);
    AcceptedSegmentIsSigned(actions, AcceptedOf(front), last, |Carried(front)|, |last.actionIds|);
  }

  lemma SignedPush(actions: seq<Action>, k: nat, to: nat)
    requires k <= to <= |actions| && AllSigned(actions[..k]) && AllSigned(actions[k..to])
    ensures AllSigned(actions[..to])
  {
    assert actions[..to] == actions[..k] + actions[k..to];
  }

  lemma {:induction false} AcceptedAreSigned(actions: seq<Action>, records: seq<Record>)
    requires DistinctIds(actions) && PrefixIds(actions, Carried(records))
    requires BlocksOf(actions, AcceptedOf(records)).Ok?
    ensures AllSigned(actions[..|Carried(records)|])
  {
    if records != [] {
      var front, last := records[..|records| - 1], records[|records| - 1];
      assert records == front + [last];
      NewestPrefix(actions, front, last);
      AcceptedAppend(front, last);
      if last.outcome == ACCEPTED {
        NewestIsSigned(actions, front, last);
        AcceptedAreSigned(actions, front);
        SignedPush(actions, |Carried(front)|, |Carried(records)|);
      } else {
        CarriedAppend(front, last);
        AcceptedAreSigned(actions, front);
      }
    }
  }

  /** Everything a posted request replays was signed. */
  lemma ReplayedAreSigned(w: World)
    requires Inv(w) && w.attempt.Some? && w.attempt.value.stage != Queued
    ensures Replayed(w) <= |w.room.actions| && AllSigned(w.room.actions[..Replayed(w)])
  {
    RequestIsHistoryPlusSegment(w);
    AcceptedAreSigned(w.room.actions, w.room.checkpoints);
    SignedPush(w.room.actions, |Carried(w.room.checkpoints)|, Replayed(w));
  }

  lemma BatchesTileLog(w: World)
    requires Inv(w) && w.attempt.Some?
    ensures Concat(Batches(w)) == w.room.actions[..Replayed(w)]
  {
    var k, n := |Carried(w.room.checkpoints)|, |w.attempt.value.carried|;
    var segments, segment := AcceptedSegments(w.room.actions, w.room.checkpoints), Segment(w.room.actions, w.room.checkpoints, n);
    SegmentsTileLog(w.room.actions, w.room.checkpoints);
    ConcatAppend(segments, segment, 0);
    assert w.room.actions[..k] + segment == w.room.actions[..k + n];
  }

  lemma BatchesOrderIff(w: World, signer: nat)
    requires Inv(w) && !w.mode.BrowserSigned? && w.attempt.Some? && w.attempt.value.stage != Queued
    ensures Replayed(w) <= |w.room.actions|
    ensures ShowsNoncesInOrder(w, signer)
            <==> AllOrdered(Batches(w), signer) && ClientsLast(w.room.actions[..Replayed(w)], w.mode.options, signer)
  {
    var n := |w.attempt.value.carried|;
    ReplayedAreSigned(w);
    RequestShowsBatches(w, signer);
    BatchesTileLog(w);
    BatchesClimb(w.room.actions, w.room.checkpoints, n, w.mode.options, signer);
    var batches := Batches(w);
    assert batches == AcceptedSegments(w.room.actions, w.room.checkpoints) + [Segment(w.room.actions, w.room.checkpoints, n)];
    OrderOfSegments(w.room.actions, w.mode.options, Replayed(w), batches, signer);
    SkippedByClients(w.room.actions, w.mode.options, Replayed(w), signer);
  }

  /**
   * In every run of a fixture-signed room, the request an attempt posts shows a
   * signer's nonces as 0, 1, 2, ... exactly when each batch it replays keeps
   * that signer's block-one moves before its block-two moves, and no move
   * counted for the signer was signed by a client before one its fixture signed.
   */
  lemma ReplayedNoncesInOrderIff(
    mode: Mode, createdAt: int, deadline: Option<nat>, chain: OnChainRoom, steps: seq<Step>, w: World, signer: nat)
    requires chain.batchIndex == 0 && !mode.BrowserSigned?
    requires Run(Initial(mode, createdAt, deadline, chain), steps) == Some(w)
    requires w.attempt.Some? && w.attempt.value.stage != Queued
    ensures Inv(w) && w.mode == mode && Replayed(w) <= |w.room.actions|
    ensures ShowsNoncesInOrder(w, signer)
            <==> AllOrdered(Batches(w), signer) && ClientsLast(w.room.actions[..Replayed(w)], mode.options, signer)
  {
    InitialInv(mode, createdAt, deadline, chain);
    RunKeepsInv(Initial(mode, createdAt, deadline, chain), steps);
    RunKeepsMode(Initial(mode, createdAt, deadline, chain), steps);
    BatchesOrderIff(w, signer);
  }

  lemma {:induction false} RunKeepsMode(w: World, steps: seq<Step>)
    requires Run(w, steps).Some?
    ensures Run(w, steps).value.mode == w.mode
  {
    if steps != [] {
      RunKeepsMode(w, steps[..|steps| - 1]);
    }
  }
}
