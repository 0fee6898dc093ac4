/** What a returned receipt promises, read off the request and the archive its submission began with. */
module AdmissionReceipts {
  import opened Wrappers
  import opened HexText
  import opened Admission
  import opened AdmissionGuarantees

  /** The request's text is this number. */
  predicate Says(text: string, number: nat) {
    IsDecimal(text) && DecimalValue(text) == number
  }

  /**
   * The promise itself: the request's numbers, the room's bond epoch, a batch
   * the room has not passed and a deadline within its window of the head read.
   */
  predicate Promises(c: Config, room: Room, request: Request, head: nat, q: Queued) {
    && CleanHex(request.raw) == Ok(q.raw) && q.receipt.transactionHash == Keccak(q.raw)
    && Says(request.depositInboxId, q.receipt.depositInboxId)
    && Says(request.deadline, q.receipt.deadline)
    && Says(request.maximumBatch, q.receipt.maximumBatch)
    && Says(if request.fee.Some? then request.fee.value else "0", q.receipt.fee)
    && q.receipt.bondEpoch == room.bondEpoch
    && q.receipt.maximumBatch > room.latestBatch
    && head + c.minimumLead <= q.receipt.deadline <= head + room.window
    && room.latestObserved <= head <= room.latestObserved + c.maximumLag
  }

  /** The archive's own account of the same promise. */
  predicate Archived(room: Room, r: Receipt) {
    && room.rows != []
    && var row := room.rows[|room.rows| - 1];
    && row.admissionId == r.admissionId && row.transactionHash == r.transactionHash
    && row.depositInboxId == r.depositInboxId && row.content == r.content
    && row.deadline == r.deadline && row.maximumBatch == r.maximumBatch && row.status == Pending
  }

  // ----- What each phase has established

  predicate VettedFor(request: Request, v: Vetted) {
    && CleanHex(request.raw) == Ok(v.raw)
    && Says(request.depositInboxId, v.depositInboxId)
    && Says(request.deadline, v.deadline)
    && Says(request.maximumBatch, v.maximumBatch)
    && Says(if request.fee.Some? then request.fee.value else "0", v.fee)
  }

  predicate HeadFits(c: Config, room: Room, head: nat) {
    room.latestObserved <= head <= room.latestObserved + c.maximumLag
  }

  predicate PhaseFits(c: Config, room: Room, request: Request, p: Phase) {
    && (p.AwaitSender? ==> CleanHex(request.raw) == Ok(p.raw) && HeadFits(c, room, p.head))
    && (IsVetted(p) ==> VettedFor(request, p.v) && HeadFits(c, room, p.v.head))
    && (HasClaim(p) ==>
          p.v.maximumBatch > room.latestBatch && p.v.head + c.minimumLead <= p.v.deadline <= p.v.head + room.window)
  }

  lemma VetFits(c: Config, room: Room, request: Request, head: nat, raw: string, sender: Option<string>, limited: bool)
    requires CleanHex(request.raw) == Ok(raw)
    ensures var v := Vet(c, room, request, head, raw, sender, limited);
            v.Ok? ==> VettedFor(request, v.value) && v.value.head == head
  {
  }

  lemma ClaimFits(
      c: Config, room: Room, request: Request, pending: seq<Queued>, issued: nat, v: Vetted, content: Content, entry: Option<ChainDeposit>)
    requires VettedFor(request, v) && HeadFits(c, room, v.head)
    ensures var p := ClaimId(c, room, pending, issued, v, content, entry); p.Ok? ==> PhaseFits(c, room, request, p.value)
  {
  }

  lemma ResumedFits(c: Config, s: Service, answer: Answer)
    requires s.active.Some? && !s.active.value.phase.AwaitSignature? && Resume(c, s, answer).Some?
    requires PhaseFits(c, s.active.value.room, s.active.value.request, s.active.value.phase)
    ensures var after := Resume(c, s, answer).value;
            && after.returned == s.returned
            && (after.active.Some? ==>
                  && after.active.value.room == s.active.value.room && after.active.value.request == s.active.value.request
                  && PhaseFits(c, s.active.value.room, s.active.value.request, after.active.value.phase))
  {
    var room, request := s.active.value.room, s.active.value.request;
    match s.active.value.phase
    case AwaitHead =>
    case AwaitSender(head, raw) =>
      VetFits(c, room, request, head, raw, answer.sender, answer.limited);
      var v := Vet(c, room, request, head, raw, answer.sender, answer.limited);
      if v.Ok? {
        ClaimFits(c, room, request, s.pending, s.issued, v.value, ZeroContent, None);
      }
    case AwaitDeposit(v) =>
    case AwaitBlock(v, entry) =>
      var content := ReadBlock(room, v, entry, answer.hash);
      if content.Ok? {
        ClaimFits(c, room, request, s.pending, s.issued, v, content.value, Some(entry));
      }
    case AwaitCursor(v, claim) =>
  }

  /** A signature that returns a receipt returns, queues and archives the promise its phase had fixed. */
  lemma SignedFits(c: Config, s: Service, answer: Answer)
    requires s.active.Some? && s.active.value.phase.AwaitSignature? && answer.Signature?
    requires PhaseFits(c, s.active.value.room, s.active.value.request, s.active.value.phase)
    ensures var after, a := Resume(c, s, answer).value, s.active.value;
            && after.active.None?
            && (after.returned != s.returned ==>
                  && |after.returned| == |s.returned| + 1 && after.returned[..|s.returned|] == s.returned
                  && var issue := after.returned[|s.returned|];
                  && Promises(c, a.room, a.request, issue.head, issue.entry)
                  && issue.entry.receipt.admissionId == a.phase.claim.id && issue.entry.receipt.content == a.phase.claim.content
                  && answer.signature == Some(issue.entry.receipt.signature)
                  && after.pending != [] && after.pending[|after.pending| - 1] == issue.entry
                  && after.archive.Some? && Archived(after.archive.value, issue.entry.receipt))
  {
  }

  // ----- Over whole runs

  /** Step `k` opened this archive for this request, and no other submission has begun since. */
  ghost predicate Began(c: Config, archive: Option<Room>, disk: nat, steps: seq<Step>, k: nat, request: Request, room: Room) {
    && k < |steps| && steps[k] == Begin(request)
    && Run(c, archive, disk, steps[..k]).Some?
    && Run(c, archive, disk, steps[..k]).value.archive == Some(room) && OpenRoom(c, Some(room)).Ok?
    && forall j :: k < j < |steps| ==> !steps[j].Begin?
  }

  /** The submission in flight is the last one begun. */
  ghost predicate FlightInv(c: Config, archive: Option<Room>, disk: nat, steps: seq<Step>, s: Service) {
    s.active.Some? ==>
      && PhaseFits(c, s.active.value.room, s.active.value.request, s.active.value.phase)
      && exists k :: Began(c, archive, disk, steps, k, s.active.value.request, s.active.value.room)
  }

  lemma BeganStays(c: Config, archive: Option<Room>, disk: nat, steps: seq<Step>, k: nat, request: Request, room: Room)
    requires steps != [] && !steps[|steps| - 1].Begin?
    requires Began(c, archive, disk, steps[..|steps| - 1], k, request, room)
    ensures Began(c, archive, disk, steps, k, request, room)
  {
    assert steps[..|steps| - 1][..k] == steps[..k];
  }

  lemma NextFits(c: Config, s: Service, step: Step)
    requires Next(c, s, step).Some? && !step.Begin?
    requires s.active.Some? ==> PhaseFits(c, s.active.value.room, s.active.value.request, s.active.value.phase)
    ensures var after := Next(c, s, step).value;
            after.active.Some? ==>
              && s.active.Some? && after.active.value.room == s.active.value.room
              && after.active.value.request == s.active.value.request
              && PhaseFits(c, after.active.value.room, after.active.value.request, after.active.value.phase)
  {
    if step.Answered? {
      if s.active.value.phase.AwaitSignature? {
        SignedFits(c, s, step.answer);
      } else {
        ResumedFits(c, s, step.answer);
      }
    }
  }

  lemma {:induction false} RunKeepsFlight(c: Config, archive: Option<Room>, disk: nat, steps: seq<Step>)
    requires Run(c, archive, disk, steps).Some?
    ensures FlightInv(c, archive, disk, steps, Run(c, archive, disk, steps).value)
  {
    if steps != [] {
      var front, step := steps[..|steps| - 1], steps[|steps| - 1];
      RunKeepsFlight(c, archive, disk, front);
      var s, after := Run(c, archive, disk, front).value, Run(c, archive, disk, steps).value;
      if after.active.Some? {
        if step.Begin? {
          assert Began(c, archive, disk, steps, |front|, after.active.value.request, after.active.value.room);
        } else {
          NextFits(c, s, step);
          var k :| Began(c, archive, disk, front, k, s.active.value.request, s.active.value.room);
          BeganStays(c, archive, disk, steps, k, s.active.value.request, s.active.value.room);
        }
      }
    }
  }

  /**
   * The last step of this run returned a receipt: that of the submission begun
   * at step `k` with this request on this archive, no other having begun since.
   * What was returned, queued and archived is that promise.
   */
  ghost predicate ReturnedLast(
      c: Config, archive: Option<Room>, disk: nat, steps: seq<Step>, k: nat, request: Request, room: Room)
  {
    && steps != [] && Run(c, archive, disk, steps).Some?
    && Began(c, archive, disk, steps[..|steps| - 1], k, request, room)
    && var after := Run(c, archive, disk, steps).value;
    && after.returned != [] && after.pending != [] && after.archive.Some?
    && var issue := after.returned[|after.returned| - 1];
    && steps[|steps| - 1].Answered? && steps[|steps| - 1].answer.Signature?
    && steps[|steps| - 1].answer.signature == Some(issue.entry.receipt.signature)
    && Promises(c, room, request, issue.head, issue.entry)
    && after.pending[|after.pending| - 1] == issue.entry
    && Archived(after.archive.value, issue.entry.receipt)
  }

  lemma NextReturns(c: Config, s: Service, step: Step)
    requires Next(c, s, step).Some?
    requires s.active.Some? ==> PhaseFits(c, s.active.value.room, s.active.value.request, s.active.value.phase)
    ensures var after := Next(c, s, step).value;
            || after.returned == s.returned
            || (&& s.active.Some? && |after.returned| == |s.returned| + 1 && after.returned[..|s.returned|] == s.returned
                && var a, issue := s.active.value, after.returned[|s.returned|];
                && step.Answered? && step.answer.Signature? && step.answer.signature == Some(issue.entry.receipt.signature)
                && Promises(c, a.room, a.request, issue.head, issue.entry)
                && after.pending != [] && after.pending[|after.pending| - 1] == issue.entry
                && after.archive.Some? && Archived(after.archive.value, issue.entry.receipt))
  {
    if step.Answered? {
      if s.active.value.phase.AwaitSignature? {
        SignedFits(c, s, step.answer);
      } else {
        ResumedFits(c, s, step.answer);
      }
    }
  }

  /** One step returns at most one receipt. */
  lemma ReturnsOne(c: Config, archive: Option<Room>, disk: nat, steps: seq<Step>)
    requires steps != [] && Run(c, archive, disk, steps).Some?
    ensures var before := Run(c, archive, disk, steps[..|steps| - 1]).value.returned;
            var after := Run(c, archive, disk, steps).value.returned;
            after == before || (|after| == |before| + 1 && after[..|before|] == before)
  {
    RunKeepsFlight(c, archive, disk, steps[..|steps| - 1]);
    NextReturns(c, Run(c, archive, disk, steps[..|steps| - 1]).value, steps[|steps| - 1]);
  }

  /** And it is that of the submission in flight. */
  lemma LastReceipt(c: Config, archive: Option<Room>, disk: nat, steps: seq<Step>)
    returns (k: nat, request: Request, room: Room)
    requires steps != [] && Run(c, archive, disk, steps).Some?
    requires Run(c, archive, disk, steps).value.returned != Run(c, archive, disk, steps[..|steps| - 1]).value.returned
    ensures ReturnedLast(c, archive, disk, steps, k, request, room)
  {
    var front := steps[..|steps| - 1];
    var s := Run(c, archive, disk, front).value;
    RunKeepsFlight(c, archive, disk, front);
    NextReturns(c, s, steps[|steps| - 1]);
    request, room := s.active.value.request, s.active.value.room;
    k :| Began(c, archive, disk, front, k, request, room);
  }

  /** The step that returned receipt `i`. */
  lemma {:induction false} ReturnStep(c: Config, archive: Option<Room>, disk: nat, steps: seq<Step>, i: nat) returns (m: nat)
    requires Run(c, archive, disk, steps).Some? && i < |Run(c, archive, disk, steps).value.returned|
    ensures m < |steps| && Run(c, archive, disk, steps[..m]).Some? && |Run(c, archive, disk, steps[..m]).value.returned| == i
    ensures Run(c, archive, disk, steps[..m + 1]).Some? && |Run(c, archive, disk, steps[..m + 1]).value.returned| == i + 1
    ensures Run(c, archive, disk, steps[..m + 1]).value.returned[i] == Run(c, archive, disk, steps).value.returned[i]
  {
    var front := steps[..|steps| - 1];
    var before := Run(c, archive, disk, front).value.returned;
    ReturnsOne(c, archive, disk, steps);
    if i < |before| {
      m := ReturnStep(c, archive, disk, front, i);
      assert front[..m] == steps[..m] && front[..m + 1] == steps[..m + 1];
      assert Run(c, archive, disk, steps).value.returned[..|before|][i] == before[i];
    } else {
      m := |steps| - 1;
      assert steps[..m + 1] == steps;
    }
  }

  /**
   * Every receipt of every run promises exactly what the request asked that
   * began its submission, under the bond epoch and within the limits of the
   * archive that submission opened, and the archive was given the same promise.
   */
  lemma ReceiptsPromiseTheirRequests(c: Config, archive: Option<Room>, disk: nat, steps: seq<Step>, i: nat)
    returns (k: nat, m: nat, request: Request, room: Room)
    requires Run(c, archive, disk, steps).Some? && i < |Run(c, archive, disk, steps).value.returned|
    ensures m < |steps| && ReturnedLast(c, archive, disk, steps[..m + 1], k, request, room)
    ensures |Run(c, archive, disk, steps[..m + 1]).value.returned| == i + 1
    ensures Run(c, archive, disk, steps[..m + 1]).value.returned[i] == Run(c, archive, disk, steps).value.returned[i]
  {
    m := ReturnStep(c, archive, disk, steps, i);
    assert steps[..m + 1][..|steps[..m + 1]| - 1] == steps[..m];
    k, request, room := LastReceipt(c, archive, disk, steps[..m + 1]);
  }
}
