/**
 * Admission when the archive is the service's own: what it then accounts for,
 * and that ids come out consecutive. Also what every signed receipt rests on.
 */
module AdmissionExposure {
  import opened Wrappers
  import opened HexText
  import opened Admission
  import opened AdmissionGuarantees

  // ----- The exposure an archive shows

  predicate DistinctHashes(rows: seq<Row>) {
    forall i, j :: 0 <= i < j < |rows| ==> rows[i].transactionHash != rows[j].transactionHash
  }

  predicate HoldsDeposit(row: Row) {
    row.status.Pending? && row.depositInboxId != 0
  }

  predicate DistinctDeposits(rows: seq<Row>) {
    forall i, j :: 0 <= i < j < |rows| && HoldsDeposit(rows[i]) && HoldsDeposit(rows[j]) ==>
      rows[i].depositInboxId != rows[j].depositInboxId
  }

  /** Every pending receipt is covered by the bond, no transaction appears twice, no deposit backs two promises. */
  predicate Exposed(room: Room) {
    && PendingCount(room.rows) * room.penalty <= room.bond
    && DistinctHashes(room.rows)
    && DistinctDeposits(room.rows)
  }

  function Rank(revision: Option<nat>): nat {
    if revision.None? then 0 else revision.value
  }

  /** The room a submission read is the archive's, unless a write has since passed it. */
  predicate Behind(room: Room, archive: Room) {
    && Rank(room.revision) <= Rank(archive.revision)
    && (room.revision == archive.revision ==> room.rows == archive.rows)
    && room.bond == archive.bond && room.penalty == archive.penalty
  }

  /** What the phases past vetting established about the room they read. */
  predicate Checked(room: Room, p: Phase) {
    && (IsVetted(p) ==>
          (PendingCount(room.rows) + 1) * room.penalty <= room.bond && !HashKnown(room.rows, Keccak(p.v.raw)))
    && (HasClaim(p) && p.v.depositInboxId != 0 ==> !DepositReserved(room.rows, p.v.depositInboxId))
  }

  predicate ExposureInv(s: Service) {
    && s.archive.Some? && Exposed(s.archive.value)
    && (s.active.Some? ==>
          Behind(s.active.value.room, s.archive.value) && Checked(s.active.value.room, s.active.value.phase))
  }

  lemma ClaimKeepsChecks(
      c: Config, room: Room, pending: seq<Queued>, issued: nat, v: Vetted, content: Content, entry: Option<ChainDeposit>)
    ensures var p := ClaimId(c, room, pending, issued, v, content, entry);
            p.Ok? ==> p.value.AwaitCursor? && p.value.v == v
  {
  }

  lemma ResumedIsChecked(c: Config, s: Service, answer: Answer)
    requires s.active.Some? && !s.active.value.phase.AwaitSignature? && Resume(c, s, answer).Some?
    requires Checked(s.active.value.room, s.active.value.phase)
    ensures var after := Resume(c, s, answer).value;
            && after.archive == s.archive
            && (after.active.Some? ==>
                  after.active.value.room == s.active.value.room
                  && Checked(s.active.value.room, after.active.value.phase))
  {
    var room, request := s.active.value.room, s.active.value.request;
    match s.active.value.phase
    case AwaitHead =>
    case AwaitSender(head, raw) =>
      var v := Vet(c, room, request, head, raw, answer.sender, answer.limited);
      if v.Ok? {
        ClaimKeepsChecks(c, room, s.pending, s.issued, v.value, ZeroContent, None);
      }
    case AwaitDeposit(v) =>
    case AwaitBlock(v, entry) =>
      var content := ReadBlock(room, v, entry, answer.hash);
      if content.Ok? {
        ClaimKeepsChecks(c, room, s.pending, s.issued, v, content.value, Some(entry));
      }
    case AwaitCursor(v, claim) =>
  }

  lemma CountPush(rows: seq<Row>, row: Row)
    ensures PendingCount(rows + [row]) == PendingCount(rows) + (if row.status.Pending? then 1 else 0)
  {
    assert (rows + [row])[..|rows|] == rows;
  }

  lemma {:induction false} CountResolved(rows: seq<Row>, index: nat)
    requires index < |rows| && rows[index].status.Pending?
    ensures PendingCount(rows[index := rows[index].(status := Resolved)]) == PendingCount(rows) - 1
  {
    var after := rows[index := rows[index].(status := Resolved)];
    if index == |rows| - 1 {
      assert after[..|rows| - 1] == rows[..|rows| - 1];
    } else {
      CountResolved(rows[..|rows| - 1], index);
      assert after[..|rows| - 1] == rows[..|rows| - 1][index := rows[index].(status := Resolved)];
    }
  }

  lemma RowsStayDistinct(rows: seq<Row>, row: Row)
    requires DistinctHashes(rows) && DistinctDeposits(rows)
    requires !HashKnown(rows, row.transactionHash)
    requires row.depositInboxId != 0 ==> !DepositReserved(rows, row.depositInboxId)
    ensures DistinctHashes(rows + [row]) && DistinctDeposits(rows + [row])
  {
  }

  lemma PushIsExposed(room: Room, row: Row)
    requires DistinctHashes(room.rows) && DistinctDeposits(room.rows) && row.status.Pending?
    requires (PendingCount(room.rows) + 1) * room.penalty <= room.bond
    requires !HashKnown(room.rows, row.transactionHash)
    requires row.depositInboxId != 0 ==> !DepositReserved(room.rows, row.depositInboxId)
    ensures Exposed(room.(rows := room.rows + [row]))
  {
    CountPush(room.rows, row);
    RowsStayDistinct(room.rows, row);
  }

  lemma PutKeeps(archive: Room, room: Room)
    requires PutRoom(Some(archive), room).Ok?
    ensures var stored := PutRoom(Some(archive), room).value;
            && archive.revision == room.revision
            && stored.rows == room.rows && stored.penalty == room.penalty && stored.bond == room.bond
            && (Exposed(room) ==> Exposed(stored))
  {
  }

  lemma PublishKeepsExposure(c: Config, s: Service, answer: Answer)
    requires ExposureInv(s) && s.active.Some? && s.active.value.phase.AwaitSignature? && answer.Signature?
    ensures ExposureInv(Resume(c, s, answer).value)
  {
    var room, p := s.active.value.room, s.active.value.phase;
    if answer.signature.Some? && !answer.putFails {
      WrittenIsExposed(room, s.archive.value, p, answer.signature.value);
      PublishedArchive(c, s, room, p.v, p.claim, p.cursor, answer.signature, answer.putFails, answer.diskFails);
    }
  }

  /** What a signed receipt's row makes of the archive it is written over. */
  lemma WrittenIsExposed(room: Room, archive: Room, p: Phase, signature: string)
    requires Exposed(archive) && Behind(room, archive) && Checked(room, p) && p.AwaitSignature?
    ensures var written := PutRoom(Some(archive), room.(rows := room.rows + [RowOf(Sign(room, p.v, p.claim, signature))]));
            written.Ok? ==> Exposed(written.value)
  {
    var row := RowOf(Sign(room, p.v, p.claim, signature));
    var written := room.(rows := room.rows + [row]);
    if PutRoom(Some(archive), written).Ok? {
      PutKeeps(archive, written);
      assert row.transactionHash == Keccak(p.v.raw) && row.depositInboxId == p.v.depositInboxId;
      PushIsExposed(room, row);
    }
  }

  lemma PublishedArchive(
      c: Config, s: Service, room: Room, v: Vetted, claim: Claim, cursor: nat,
      signature: Option<string>, putFails: bool, diskFails: bool)
    requires signature.Some? && !putFails
    ensures var after := Publish(c, s, room, v, claim, cursor, signature, putFails, diskFails);
            var written := PutRoom(s.archive, room.(rows := room.rows + [RowOf(Sign(room, v, claim, signature.value))]));
            && after.active.None?
            && after.archive == (if written.Ok? then Some(written.value) else s.archive)
  {
  }

  lemma FewerIsCovered(count: nat, penalty: nat, bond: nat)
    requires count > 0 && count * penalty <= bond
    ensures (count - 1) * penalty <= bond
  {
  }

  lemma ResolveKeepsExposure(c: Config, s: Service, index: nat)
    requires ExposureInv(s) && Next(c, s, Resolve(index)).Some?
    ensures ExposureInv(Next(c, s, Resolve(index)).value)
  {
    var room := s.archive.value;
    CountResolved(room.rows, index);
    FewerIsCovered(PendingCount(room.rows), room.penalty, room.bond);
  }

  lemma NextKeepsExposure(c: Config, s: Service, step: Step)
    requires ExposureInv(s) && !step.Replace? && Next(c, s, step).Some?
    ensures ExposureInv(Next(c, s, step).value)
  {
    match step
    case Answered(answer) =>
      if s.active.value.phase.AwaitSignature? {
        PublishKeepsExposure(c, s, answer);
      } else {
        ResumedIsChecked(c, s, answer);
      }
    case Resolve(index) => ResolveKeepsExposure(c, s, index);
    case _ =>
  }

  /** Every archive reached by the service's own writes, resolutions and heartbeats stays within its bond. */
  lemma {:induction false} ExposureHolds(c: Config, archive: Room, disk: nat, steps: seq<Step>)
    requires Exposed(archive) && Run(c, Some(archive), disk, steps).Some?
    requires forall i :: 0 <= i < |steps| ==> !steps[i].Replace?
    ensures ExposureInv(Run(c, Some(archive), disk, steps).value)
  {
    if steps != [] {
      ExposureHolds(c, archive, disk, steps[..|steps| - 1]);
      NextKeepsExposure(c, Run(c, Some(archive), disk, steps[..|steps| - 1]).value, steps[|steps| - 1]);
    }
  }

  // ----- Consecutive ids

  predicate Consecutive(returned: seq<Issue>, first: nat) {
    forall i :: 0 <= i < |returned| ==> returned[i].entry.receipt.admissionId == first + i + 1
  }

  /** The archive accounts for every id given out: those returned, and `lost` ones that never were. */
  predicate CountsInv(s: Service, first: nat, lost: nat) {
    && s.archive.Some? && Base(s.archive.value) == first + |s.returned| + lost
    && (s.active.Some? ==>
          && Base(s.active.value.room) == first + |s.returned| + lost
          && (HasClaim(s.active.value.phase) ==> s.active.value.phase.claim.id == first + |s.returned| + lost + 1))
  }

  /** A rewrite keeps the highest id the archive accounts for. */
  predicate Keeps(s: Service, step: Step) {
    step.Replace? && s.archive.Some? ==> step.archive.Some? && Base(step.archive.value) == Base(s.archive.value)
  }

  /** The archive takes the signed receipt's row. */
  predicate Writes(s: Service, step: Step) {
    && s.active.Some? && s.active.value.phase.AwaitSignature? && step.Answered? && step.answer.Signature?
    && step.answer.signature.Some? && !step.answer.putFails
    && var a := s.active.value;
       PutRoom(s.archive,
               a.room.(rows := a.room.rows + [RowOf(Sign(a.room, a.phase.v, a.phase.claim, step.answer.signature.value))])).Ok?
  }

  /** It does, and the id record that must follow is refused by the disk. */
  predicate Loses(c: Config, s: Service, step: Step) {
    Writes(s, step) && c.durableIds && step.answer.diskFails && s.active.value.phase.claim.id > s.issued
  }

  predicate Returns(c: Config, s: Service, step: Step) {
    Writes(s, step) && !Loses(c, s, step)
  }

  lemma MaximumPush(rows: seq<Row>, row: Row)
    ensures MaximumId(rows + [row]) == if row.admissionId > MaximumId(rows) then row.admissionId else MaximumId(rows)
  {
    assert (rows + [row])[..|rows|] == rows;
  }

  lemma {:induction false} MaximumIgnoresStatus(rows: seq<Row>, index: nat)
    requires index < |rows|
    ensures MaximumId(rows[index := rows[index].(status := Resolved)]) == MaximumId(rows)
  {
    var after := rows[index := rows[index].(status := Resolved)];
    if index == |rows| - 1 {
      assert after[..|rows| - 1] == rows[..|rows| - 1];
    } else {
      MaximumIgnoresStatus(rows[..|rows| - 1], index);
      assert after[..|rows| - 1] == rows[..|rows| - 1][index := rows[index].(status := Resolved)];
    }
  }

  lemma ClaimIsNext(
      c: Config, room: Room, pending: seq<Queued>, issued: nat, v: Vetted, content: Content, entry: Option<ChainDeposit>)
    ensures var p := ClaimId(c, room, pending, issued, v, content, entry);
            p.Ok? ==> p.value.AwaitCursor? && p.value.claim.id == Base(room) + 1
  {
  }

  lemma ResumedCounts(c: Config, s: Service, answer: Answer, next: nat)
    requires s.active.Some? && !s.active.value.phase.AwaitSignature? && Resume(c, s, answer).Some?
    requires Base(s.active.value.room) + 1 == next
    requires HasClaim(s.active.value.phase) ==> s.active.value.phase.claim.id == next
    ensures var after := Resume(c, s, answer).value;
            && after.archive == s.archive && after.returned == s.returned
            && (after.active.Some? ==>
                  && after.active.value.room == s.active.value.room
                  && (HasClaim(after.active.value.phase) ==> after.active.value.phase.claim.id == next))
  {
    var room, request := s.active.value.room, s.active.value.request;
    match s.active.value.phase
    case AwaitHead =>
    case AwaitSender(head, raw) =>
      var v := Vet(c, room, request, head, raw, answer.sender, answer.limited);
      if v.Ok? {
        ClaimIsNext(c, room, s.pending, s.issued, v.value, ZeroContent, None);
      }
    case AwaitDeposit(v) =>
    case AwaitBlock(v, entry) =>
      var content := ReadBlock(room, v, entry, answer.hash);
      if content.Ok? {
        ClaimIsNext(c, room, s.pending, s.issued, v, content.value, Some(entry));
      }
    case AwaitCursor(v, claim) =>
  }

  function Written(s: Service, signature: string): Result<Room, Failure>
    requires s.active.Some? && s.active.value.phase.AwaitSignature?
  {
    var a := s.active.value;
    PutRoom(s.archive, a.room.(rows := a.room.rows + [RowOf(Sign(a.room, a.phase.v, a.phase.claim, signature))]))
  }

  /** How a signature ends its submission. */
  lemma SignatureOutcome(c: Config, s: Service, step: Step)
    requires s.active.Some? && s.active.value.phase.AwaitSignature? && step.Answered? && step.answer.Signature?
    ensures var after := Resume(c, s, step.answer).value;
            && after.active.None?
            && after.archive == (if Writes(s, step) then Some(Written(s, step.answer.signature.value).value) else s.archive)
            && (!Returns(c, s, step) ==> after.returned == s.returned)
            && (Returns(c, s, step) ==>
                  && |after.returned| == |s.returned| + 1 && after.returned[..|s.returned|] == s.returned
                  && after.returned[|s.returned|].entry.receipt.admissionId == s.active.value.phase.claim.id)
  {
  }

  lemma WrittenBase(s: Service, signature: string)
    requires s.active.Some? && s.active.value.phase.AwaitSignature? && Written(s, signature).Ok?
    requires s.active.value.phase.claim.id == Base(s.active.value.room) + 1
    ensures Base(Written(s, signature).value) == s.active.value.phase.claim.id
  {
    var a := s.active.value;
    MaximumPush(a.room.rows, RowOf(Sign(a.room, a.phase.v, a.phase.claim, signature)));
  }

  /** A signature adds one id to the archive's account exactly when the archive takes its row. */
  lemma PublishCounts(c: Config, s: Service, step: Step, first: nat, lost: nat)
    requires CountsInv(s, first, lost) && s.active.Some? && s.active.value.phase.AwaitSignature?
    requires step.Answered? && step.answer.Signature?
    ensures var after := Resume(c, s, step.answer).value;
            && CountsInv(after, first, if Loses(c, s, step) then lost + 1 else lost)
            && (!Returns(c, s, step) ==> after.returned == s.returned)
            && (Returns(c, s, step) ==>
                  && |after.returned| == |s.returned| + 1 && after.returned[..|s.returned|] == s.returned
                  && after.returned[|s.returned|].entry.receipt.admissionId == first + |s.returned| + lost + 1)
  {
    SignatureOutcome(c, s, step);
    if Writes(s, step) {
      WrittenBase(s, step.answer.signature.value);
    }
  }

  lemma NextCounts(c: Config, s: Service, step: Step, first: nat, lost: nat)
    requires CountsInv(s, first, lost) && Keeps(s, step) && Next(c, s, step).Some?
    ensures var after := Next(c, s, step).value;
            && CountsInv(after, first, if Loses(c, s, step) then lost + 1 else lost)
            && (!Returns(c, s, step) ==> after.returned == s.returned)
            && (Returns(c, s, step) ==>
                  && |after.returned| == |s.returned| + 1 && after.returned[..|s.returned|] == s.returned
                  && after.returned[|s.returned|].entry.receipt.admissionId == first + |s.returned| + lost + 1)
  {
    match step
    case Answered(answer) =>
      if s.active.value.phase.AwaitSignature? {
        PublishCounts(c, s, step, first, lost);
      } else {
        ResumedCounts(c, s, answer, first + |s.returned| + lost + 1);
      }
    case Resolve(index) => MaximumIgnoresStatus(s.archive.value.rows, index);
    case _ =>
  }

  /** The submissions so far whose row was written and whose id record was not. */
  function LostIn(c: Config, archive: Room, disk: nat, steps: seq<Step>): nat
    requires Run(c, Some(archive), disk, steps).Some?
  {
    if steps == [] then 0
    else
      var front := steps[..|steps| - 1];
      LostIn(c, archive, disk, front)
      + (if Loses(c, Run(c, Some(archive), disk, front).value, steps[|steps| - 1]) then 1 else 0)
  }

  predicate LosesAt(c: Config, archive: Room, disk: nat, steps: seq<Step>, k: nat)
    requires k < |steps|
  {
    var s := Run(c, Some(archive), disk, steps[..k]);
    s.Some? && Loses(c, s.value, steps[k])
  }

  predicate ReturnsAt(c: Config, archive: Room, disk: nat, steps: seq<Step>, k: nat)
    requires k < |steps|
  {
    var s := Run(c, Some(archive), disk, steps[..k]);
    s.Some? && Returns(c, s.value, steps[k])
  }

  /** Some submission returned its receipt after another had been archived and lost. */
  predicate ReturnsAfterLoss(c: Config, archive: Room, disk: nat, steps: seq<Step>) {
    exists j, k :: 0 <= j < k < |steps| && LosesAt(c, archive, disk, steps, j) && ReturnsAt(c, archive, disk, steps, k)
  }

  /** What a step does depends only on the steps before it. */
  lemma StepsAlike(c: Config, archive: Room, disk: nat, steps: seq<Step>, k: nat)
    requires k < |steps| - 1
    ensures LosesAt(c, archive, disk, steps[..|steps| - 1], k) == LosesAt(c, archive, disk, steps, k)
    ensures ReturnsAt(c, archive, disk, steps[..|steps| - 1], k) == ReturnsAt(c, archive, disk, steps, k)
  {
    assert steps[..|steps| - 1][..k] == steps[..k];
  }

  lemma {:induction false} LostIsSome(c: Config, archive: Room, disk: nat, steps: seq<Step>)
    requires Run(c, Some(archive), disk, steps).Some?
    ensures LostIn(c, archive, disk, steps) > 0 <==> exists k :: 0 <= k < |steps| && LosesAt(c, archive, disk, steps, k)
  {
    if steps != [] {
      var front := steps[..|steps| - 1];
      LostIsSome(c, archive, disk, front);
      if k :| 0 <= k < |front| && LosesAt(c, archive, disk, front, k) {
        StepsAlike(c, archive, disk, steps, k);
        assert LosesAt(c, archive, disk, steps, k);
      }
      if k :| 0 <= k < |front| && LosesAt(c, archive, disk, steps, k) {
        StepsAlike(c, archive, disk, steps, k);
        assert LosesAt(c, archive, disk, front, k);
      }
      assert LosesAt(c, archive, disk, steps, |front|) <==> Loses(c, Run(c, Some(archive), disk, front).value, steps[|front|]);
    }
  }

  lemma LossStays(c: Config, archive: Room, disk: nat, steps: seq<Step>)
    requires steps != [] && Run(c, Some(archive), disk, steps[..|steps| - 1]).Some?
    requires var front := steps[..|steps| - 1];
             || ReturnsAfterLoss(c, archive, disk, front)
             || (LostIn(c, archive, disk, front) > 0 && Returns(c, Run(c, Some(archive), disk, front).value, steps[|front|]))
    ensures ReturnsAfterLoss(c, archive, disk, steps)
  {
    var front := steps[..|steps| - 1];
    if j, k :| 0 <= j < k < |front| && LosesAt(c, archive, disk, front, j) && ReturnsAt(c, archive, disk, front, k) {
      StepsAlike(c, archive, disk, steps, j);
      StepsAlike(c, archive, disk, steps, k);
      assert LosesAt(c, archive, disk, steps, j) && ReturnsAt(c, archive, disk, steps, k);
    } else {
      LostIsSome(c, archive, disk, front);
      var j :| 0 <= j < |front| && LosesAt(c, archive, disk, front, j);
      StepsAlike(c, archive, disk, steps, j);
      assert LosesAt(c, archive, disk, steps, j) && ReturnsAt(c, archive, disk, steps, |front|);
    }
  }

  lemma LossCameBefore(c: Config, archive: Room, disk: nat, steps: seq<Step>)
    requires steps != [] && Run(c, Some(archive), disk, steps[..|steps| - 1]).Some?
    requires ReturnsAfterLoss(c, archive, disk, steps)
    ensures var front := steps[..|steps| - 1];
            || ReturnsAfterLoss(c, archive, disk, front)
            || (LostIn(c, archive, disk, front) > 0 && Returns(c, Run(c, Some(archive), disk, front).value, steps[|front|]))
  {
    var j, k :| 0 <= j < k < |steps| && LosesAt(c, archive, disk, steps, j) && ReturnsAt(c, archive, disk, steps, k);
    LossIsOlder(c, archive, disk, steps, j, k);
  }

  lemma LossIsOlder(c: Config, archive: Room, disk: nat, steps: seq<Step>, j: nat, k: nat)
    requires j < k < |steps| && Run(c, Some(archive), disk, steps[..|steps| - 1]).Some?
    requires LosesAt(c, archive, disk, steps, j) && ReturnsAt(c, archive, disk, steps, k)
    ensures var front := steps[..|steps| - 1];
            || ReturnsAfterLoss(c, archive, disk, front)
            || (LostIn(c, archive, disk, front) > 0 && Returns(c, Run(c, Some(archive), disk, front).value, steps[|front|]))
  {
    var front := steps[..|steps| - 1];
    StepsAlike(c, archive, disk, steps, j);
    if k < |front| {
      StepsAlike(c, archive, disk, steps, k);
      assert LosesAt(c, archive, disk, front, j) && ReturnsAt(c, archive, disk, front, k);
    } else {
      LostIsSome(c, archive, disk, front);
    }
  }

  lemma ConsecutivePush(before: seq<Issue>, after: seq<Issue>, first: nat, lost: nat)
    requires |after| == |before| + 1 && after[..|before|] == before
    requires after[|before|].entry.receipt.admissionId == first + |before| + lost + 1
    ensures Consecutive(after, first) <==> Consecutive(before, first) && lost == 0
  {
    assert forall i :: 0 <= i < |before| ==> after[i] == before[i];
  }

  /** While every rewrite keeps the highest id accounted for, so that the cursor never passes the service's rows. */
  ghost predicate RewritesKeep(c: Config, archive: Room, disk: nat, steps: seq<Step>) {
    forall k :: 0 <= k < |steps| && Run(c, Some(archive), disk, steps[..k]).Some? ==>
      Keeps(Run(c, Some(archive), disk, steps[..k]).value, steps[k])
  }

  /**
   * The returned ids have no gap if and only if no submission that returned
   * comes after one whose receipt was archived and whose id record then failed.
   */
  lemma {:induction false} IdsAreConsecutiveIff(c: Config, archive: Room, disk: nat, steps: seq<Step>)
    requires RewritesKeep(c, archive, disk, steps) && Run(c, Some(archive), disk, steps).Some?
    ensures var s := Run(c, Some(archive), disk, steps).value;
            && CountsInv(s, Base(archive), LostIn(c, archive, disk, steps))
            && (Consecutive(s.returned, Base(archive)) <==> !ReturnsAfterLoss(c, archive, disk, steps))
  {
    if steps != [] {
      var front, step := steps[..|steps| - 1], steps[|steps| - 1];
      forall k | 0 <= k < |front| && Run(c, Some(archive), disk, front[..k]).Some?
        ensures Keeps(Run(c, Some(archive), disk, front[..k]).value, front[k])
      {
        assert front[..k] == steps[..k];
      }
      IdsAreConsecutiveIff(c, archive, disk, front);
      var s, lost := Run(c, Some(archive), disk, front).value, LostIn(c, archive, disk, front);
      if ReturnsAfterLoss(c, archive, disk, steps) {
        LossCameBefore(c, archive, disk, steps);
      } else if ReturnsAfterLoss(c, archive, disk, front) || (lost > 0 && Returns(c, s, step)) {
        LossStays(c, archive, disk, steps);
      }
      NextCounts(c, s, step, Base(archive), lost);
      if Returns(c, s, step) {
        ConsecutivePush(s.returned, Next(c, s, step).value.returned, Base(archive), lost);
      }
    }
  }

  // ----- What a signed receipt rests on

  /** A live deposit of the sender's, deep enough, read from the chain; its four fields are what is signed. */
  predicate FromChain(
      c: Config, inboxId: nat, sender: string, head: nat, confirmations: nat, entry: Option<ChainDeposit>, content: Content)
  {
    if inboxId == 0 then content == ZeroContent
    else
      && entry.Some? && !entry.value.consumed && !entry.value.refunded
      && Lower(entry.value.beneficiary) == Lower(sender)
      && entry.value.queuedAtBlock + confirmations <= head
      && (!c.devChain ==> confirmations >= CONFIRMATION_FLOOR)
      && content == DepositContent(entry.value.depositor, entry.value.beneficiary, entry.value.asset, entry.value.amount)
  }

  predicate Justified(c: Config, i: Issue) {
    && FromChain(c, i.entry.receipt.depositInboxId, i.entry.sender, i.head, i.confirmations, i.deposit, i.entry.receipt.content)
    && i.entry.receipt.deadline >= i.head + c.minimumLead
    && i.entry.receipt.fee >= c.minimumFee
    && i.entry.receipt.transactionHash == Keccak(i.entry.raw)
  }

  predicate PhaseJustified(c: Config, room: Room, p: Phase) {
    && (IsVetted(p) ==> p.v.fee >= c.minimumFee)
    && (p.AwaitDeposit? || p.AwaitBlock? ==>
          p.v.depositInboxId != 0 && (!c.devChain ==> room.minimumConfirmations >= CONFIRMATION_FLOOR))
    && (p.AwaitBlock? ==>
          && !p.entry.consumed && !p.entry.refunded && Lower(p.entry.beneficiary) == Lower(p.v.sender)
          && p.entry.queuedAtBlock + room.minimumConfirmations <= p.v.head)
    && (HasClaim(p) ==>
          && p.v.deadline >= p.v.head + c.minimumLead
          && FromChain(c, p.v.depositInboxId, p.v.sender, p.v.head, room.minimumConfirmations, p.claim.entry, p.claim.content))
  }

  predicate JustifiedInv(c: Config, s: Service) {
    && (forall i :: 0 <= i < |s.returned| ==> Justified(c, s.returned[i]))
    && (s.active.Some? ==> PhaseJustified(c, s.active.value.room, s.active.value.phase))
  }

  lemma ClaimIsJustified(
      c: Config, room: Room, pending: seq<Queued>, issued: nat, v: Vetted, content: Content, entry: Option<ChainDeposit>)
    requires v.fee >= c.minimumFee
    requires FromChain(c, v.depositInboxId, v.sender, v.head, room.minimumConfirmations, entry, content)
    ensures var p := ClaimId(c, room, pending, issued, v, content, entry); p.Ok? ==> PhaseJustified(c, room, p.value)
  {
  }

  lemma ResumedIsJustified(c: Config, s: Service, answer: Answer)
    requires s.active.Some? && !s.active.value.phase.AwaitSignature? && Resume(c, s, answer).Some?
    requires PhaseJustified(c, s.active.value.room, s.active.value.phase)
    ensures var after := Resume(c, s, answer).value;
            && after.returned == s.returned
            && (after.active.Some? ==> PhaseJustified(c, after.active.value.room, after.active.value.phase))
  {
    var room, request := s.active.value.room, s.active.value.request;
    match s.active.value.phase
    case AwaitHead =>
    case AwaitSender(head, raw) =>
      var v := Vet(c, room, request, head, raw, answer.sender, answer.limited);
      if v.Ok? && v.value.depositInboxId == 0 {
        ClaimIsJustified(c, room, s.pending, s.issued, v.value, ZeroContent, None);
      }
    case AwaitDeposit(v) =>
    case AwaitBlock(v, entry) =>
      var content := ReadBlock(room, v, entry, answer.hash);
      if content.Ok? {
        ClaimIsJustified(c, room, s.pending, s.issued, v, content.value, Some(entry));
      }
    case AwaitCursor(v, claim) =>
  }

  lemma NextKeepsJustified(c: Config, s: Service, step: Step)
    requires JustifiedInv(c, s) && Next(c, s, step).Some?
    ensures JustifiedInv(c, Next(c, s, step).value)
  {
    if step.Answered? && !s.active.value.phase.AwaitSignature? {
      ResumedIsJustified(c, s, step.answer);
    }
  }

  /**
   * Against any archive, a returned receipt backed by a deposit commits to
   * what the chain said of a live deposit of its sender's, confirmed deep
   * enough, and leaves the minimum lead.
   */
  lemma {:induction false} ReceiptsRestOnTheChain(c: Config, archive: Option<Room>, disk: nat, steps: seq<Step>)
    requires Run(c, archive, disk, steps).Some?
    ensures JustifiedInv(c, Run(c, archive, disk, steps).value)
  {
    if steps != [] {
      ReceiptsRestOnTheChain(c, archive, disk, steps[..|steps| - 1]);
      NextKeepsJustified(c, Run(c, archive, disk, steps[..|steps| - 1]).value, steps[|steps| - 1]);
    }
  }
}
