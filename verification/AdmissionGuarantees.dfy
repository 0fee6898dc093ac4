/** What every run of the admission service keeps, whatever the archive, the L1 and the operator do. */
module AdmissionGuarantees {
  import opened Wrappers
  import opened HexText
  import opened Admission

  predicate HasClaim(p: Phase) {
    p.AwaitCursor? || p.AwaitSignature?
  }

  predicate IsVetted(p: Phase) {
    p.AwaitDeposit? || p.AwaitBlock? || HasClaim(p)
  }

  // ----- Ids are never reused

  predicate Rising(returned: seq<Issue>) {
    forall i, j :: 0 <= i < j < |returned| ==> returned[i].entry.receipt.admissionId < returned[j].entry.receipt.admissionId
  }

  predicate Bounded(returned: seq<Issue>) {
    forall i :: 0 <= i < |returned| ==> returned[i].entry.receipt.admissionId <= returned[i].cursor + PENDING_BOUND
  }

  predicate AtMost(returned: seq<Issue>, limit: nat) {
    forall i :: 0 <= i < |returned| ==> returned[i].entry.receipt.admissionId <= limit
  }

  predicate ClaimAhead(p: Phase, issued: nat) {
    && (HasClaim(p) ==> p.claim.id > issued)
    && (p.AwaitSignature? ==> p.claim.id <= p.cursor + PENDING_BOUND)
  }

  predicate IdsInv(c: Config, s: Service) {
    && Rising(s.returned) && Bounded(s.returned)
    && AtMost(s.returned, s.issued)
    && (c.durableIds ==> AtMost(s.returned, s.disk))
    && (s.active.Some? ==> ClaimAhead(s.active.value.phase, s.issued))
  }

  lemma ClaimedIsAhead(
      c: Config, room: Room, pending: seq<Queued>, issued: nat, v: Vetted, content: Content, entry: Option<ChainDeposit>)
    ensures var p := ClaimId(c, room, pending, issued, v, content, entry);
            p.Ok? ==> p.value.AwaitCursor? && ClaimAhead(p.value, issued)
  {
  }

  lemma ResumedIsAhead(c: Config, s: Service, answer: Answer)
    requires s.active.Some? && ClaimAhead(s.active.value.phase, s.issued) && !s.active.value.phase.AwaitSignature?
    requires Resume(c, s, answer).Some?
    ensures var after := Resume(c, s, answer).value;
            && after.returned == s.returned && after.issued == s.issued && after.disk == s.disk
            && (after.active.Some? ==> ClaimAhead(after.active.value.phase, s.issued))
  {
    var room, request := s.active.value.room, s.active.value.request;
    match s.active.value.phase
    case AwaitHead =>
    case AwaitSender(head, raw) =>
      var v := Vet(c, room, request, head, raw, answer.sender, answer.limited);
      if v.Ok? {
        ClaimedIsAhead(c, room, s.pending, s.issued, v.value, ZeroContent, None);
      }
    case AwaitDeposit(v) =>
    case AwaitBlock(v, entry) =>
      var content := ReadBlock(room, v, entry, answer.hash);
      if content.Ok? {
        ClaimedIsAhead(c, room, s.pending, s.issued, v, content.value, Some(entry));
      }
    case AwaitCursor(v, claim) =>
  }

  lemma PublishKeepsIds(
      c: Config, s: Service, room: Room, v: Vetted, claim: Claim, cursor: nat,
      signature: Option<string>, putFails: bool, diskFails: bool)
    requires IdsInv(c, s) && claim.id > s.issued && claim.id <= cursor + PENDING_BOUND
    ensures IdsInv(c, Publish(c, s, room, v, claim, cursor, signature, putFails, diskFails))
  {
  }

  lemma NextKeepsIds(c: Config, s: Service, step: Step)
    requires IdsInv(c, s) && Next(c, s, step).Some?
    requires step.Restart? ==> c.durableIds
    ensures IdsInv(c, Next(c, s, step).value)
  {
    if step.Answered? {
      var a := s.active.value;
      if a.phase.AwaitSignature? {
        var answer := step.answer;
        PublishKeepsIds(c, s, a.room, a.phase.v, a.phase.claim, a.phase.cursor,
                        answer.signature, answer.putFails, answer.diskFails);
      } else {
        ResumedIsAhead(c, s, step.answer);
      }
    }
  }

  /** A restart finds the ids already issued only if they are kept on disk. */
  predicate RecordSurvives(c: Config, steps: seq<Step>) {
    c.durableIds || forall i :: 0 <= i < |steps| ==> !steps[i].Restart?
  }

  lemma {:induction false} RunKeepsIds(c: Config, archive: Option<Room>, disk: nat, steps: seq<Step>)
    requires RecordSurvives(c, steps) && Run(c, archive, disk, steps).Some?
    ensures IdsInv(c, Run(c, archive, disk, steps).value)
  {
    if steps != [] {
      RunKeepsIds(c, archive, disk, steps[..|steps| - 1]);
      NextKeepsIds(c, Run(c, archive, disk, steps[..|steps| - 1]).value, steps[|steps| - 1]);
    }
  }

  /**
   * Whatever the archive is replaced by, the ids of returned receipts strictly
   * increase and none lies more than the pending bound past the chain's cursor.
   */
  lemma IdsNeverRepeat(c: Config, archive: Option<Room>, disk: nat, steps: seq<Step>, i: nat, j: nat)
    requires RecordSurvives(c, steps) && Run(c, archive, disk, steps).Some?
    requires i < j < |Run(c, archive, disk, steps).value.returned|
    ensures var returned := Run(c, archive, disk, steps).value.returned;
            && returned[i].entry.receipt.admissionId < returned[j].entry.receipt.admissionId
            && returned[j].entry.receipt.admissionId <= returned[j].cursor + PENDING_BOUND
  {
    RunKeepsIds(c, archive, disk, steps);
  }

  // ----- No promise is lost from the queue

  /** Still queued, handed to the operator, or past its deadline at a head the service saw. */
  predicate Accounted(q: Queued, pending: seq<Queued>, handed: seq<Queued>, heads: set<nat>) {
    q in pending || q in handed || exists h :: h in heads && q.receipt.deadline <= h
  }

  predicate AllAccounted(s: Service) {
    forall i :: 0 <= i < |s.returned| && s.returned[i].life == s.life ==>
      Accounted(s.returned[i].entry, s.pending, s.handed, s.heads)
  }

  predicate SnapshotCovers(p: Phase, pending: seq<Queued>) {
    HasClaim(p) ==> forall q :: q in pending ==> q in p.claim.queue || q.receipt.deadline <= p.v.head
  }

  predicate HeadSeen(p: Phase, heads: set<nat>) {
    && (p.AwaitSender? ==> p.head in heads)
    && (IsVetted(p) ==> p.v.head in heads)
  }

  predicate QueueInv(c: Config, s: Service) {
    && |s.pending| <= c.maximumPending
    && AllAccounted(s)
    && (forall i :: 0 <= i < |s.returned| ==> s.returned[i].life <= s.life)
    && (s.active.Some? ==>
          && HeadSeen(s.active.value.phase, s.heads) && SnapshotCovers(s.active.value.phase, s.pending)
          && (HasClaim(s.active.value.phase) ==> |s.active.value.phase.claim.queue| < c.maximumPending))
  }

  lemma ClaimedCovers(
      c: Config, room: Room, pending: seq<Queued>, issued: nat, v: Vetted, content: Content, entry: Option<ChainDeposit>)
    ensures var p := ClaimId(c, room, pending, issued, v, content, entry);
            p.Ok? ==> && p.value.AwaitCursor? && p.value.v == v && SnapshotCovers(p.value, pending)
                      && |p.value.claim.queue| < c.maximumPending
  {
  }

  lemma ResumedCovers(c: Config, s: Service, answer: Answer)
    requires s.active.Some? && !s.active.value.phase.AwaitSignature? && Resume(c, s, answer).Some?
    requires HeadSeen(s.active.value.phase, s.heads) && SnapshotCovers(s.active.value.phase, s.pending)
    requires HasClaim(s.active.value.phase) ==> |s.active.value.phase.claim.queue| < c.maximumPending
    ensures var after := Resume(c, s, answer).value;
            && after.returned == s.returned && after.pending == s.pending && after.handed == s.handed
            && after.life == s.life && s.heads <= after.heads
            && (after.active.Some? ==>
                  && HeadSeen(after.active.value.phase, after.heads) && SnapshotCovers(after.active.value.phase, s.pending)
                  && (HasClaim(after.active.value.phase) ==> |after.active.value.phase.claim.queue| < c.maximumPending))
  {
    var room, request := s.active.value.room, s.active.value.request;
    match s.active.value.phase
    case AwaitHead =>
    case AwaitSender(head, raw) =>
      var v := Vet(c, room, request, head, raw, answer.sender, answer.limited);
      if v.Ok? {
        ClaimedCovers(c, room, s.pending, s.issued, v.value, ZeroContent, None);
      }
    case AwaitDeposit(v) =>
    case AwaitBlock(v, entry) =>
      var content := ReadBlock(room, v, entry, answer.hash);
      if content.Ok? {
        ClaimedCovers(c, room, s.pending, s.issued, v, content.value, Some(entry));
      }
    case AwaitCursor(v, claim) =>
  }

  lemma PublishKeepsQueue(c: Config, s: Service, answer: Answer)
    requires QueueInv(c, s) && s.active.Some? && s.active.value.phase.AwaitSignature? && answer.Signature?
    ensures QueueInv(c, Resume(c, s, answer).value)
  {
    var a := s.active.value;
    var after := Resume(c, s, answer).value;
    if after.returned != s.returned {
      var entry := after.returned[|s.returned|].entry;
      assert after.pending == a.phase.claim.queue + [entry];
      forall i | 0 <= i < |after.returned| && after.returned[i].life == s.life
        ensures Accounted(after.returned[i].entry, after.pending, after.handed, after.heads)
      {
        if i < |s.returned| {
          assert Accounted(s.returned[i].entry, s.pending, s.handed, s.heads);
        }
      }
    }
  }

  lemma NextKeepsQueue(c: Config, s: Service, step: Step)
    requires QueueInv(c, s) && Next(c, s, step).Some?
    ensures QueueInv(c, Next(c, s, step).value)
  {
    var after := Next(c, s, step).value;
    if step.Answered? {
      if s.active.value.phase.AwaitSignature? {
        PublishKeepsQueue(c, s, step.answer);
      } else {
        ResumedCovers(c, s, step.answer);
        assert forall i :: 0 <= i < |s.returned| && s.returned[i].life == s.life ==>
          Accounted(s.returned[i].entry, s.pending, s.handed, s.heads);
      }
    } else if step.Drain? {
      forall i | 0 <= i < |s.returned| && s.returned[i].life == s.life
        ensures Accounted(s.returned[i].entry, after.pending, after.handed, after.heads)
      {
        assert Accounted(s.returned[i].entry, s.pending, s.handed, s.heads);
      }
    }
  }

  lemma {:induction false} RunKeepsQueue(c: Config, archive: Option<Room>, disk: nat, steps: seq<Step>)
    requires Run(c, archive, disk, steps).Some?
    ensures QueueInv(c, Run(c, archive, disk, steps).value)
  {
    if steps != [] {
      RunKeepsQueue(c, archive, disk, steps[..|steps| - 1]);
      NextKeepsQueue(c, Run(c, archive, disk, steps[..|steps| - 1]).value, steps[|steps| - 1]);
    }
  }

  /**
   * With drains at any await, a receipt returned since the last restart is
   * queued, handed out, or past its deadline, and the queue keeps its bound.
   */
  lemma NoReceiptIsLost(c: Config, archive: Option<Room>, disk: nat, steps: seq<Step>, i: nat)
    requires Run(c, archive, disk, steps).Some?
    requires i < |Run(c, archive, disk, steps).value.returned|
    requires Run(c, archive, disk, steps).value.returned[i].life == Run(c, archive, disk, steps).value.life
    ensures var s := Run(c, archive, disk, steps).value;
            Accounted(s.returned[i].entry, s.pending, s.handed, s.heads) && |s.pending| <= c.maximumPending
  {
    RunKeepsQueue(c, archive, disk, steps);
  }
}
