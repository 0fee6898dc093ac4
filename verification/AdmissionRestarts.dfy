/** Ids across restarts when nothing but the archive remembers them. */
module AdmissionRestarts {
  import opened Wrappers
  import opened HexText
  import opened Admission
  import opened AdmissionGuarantees
  import opened AdmissionDelivery

  // ----- The id a submission returns is decided by the archive it opened

  /** Each returned id is the next one after what the archive accounted for when its submission began. */
  predicate IdsFollowBases(returned: seq<Issue>) {
    forall i :: 0 <= i < |returned| ==> returned[i].entry.receipt.admissionId == returned[i].base + 1
  }

  predicate BasesInv(s: Service) {
    && IdsFollowBases(s.returned)
    && (s.active.Some? && HasClaim(s.active.value.phase) ==>
          && s.active.value.phase.claim.base == Base(s.active.value.room)
          && s.active.value.phase.claim.id == Base(s.active.value.room) + 1)
  }

  lemma ClaimIsBased(
      c: Config, room: Room, pending: seq<Queued>, issued: nat, v: Vetted, content: Content, entry: Option<ChainDeposit>)
    ensures var p := ClaimId(c, room, pending, issued, v, content, entry);
            p.Ok? ==> p.value.AwaitCursor? && p.value.claim.base == Base(room) && p.value.claim.id == Base(room) + 1
  {
  }

  lemma ResumedIsBased(c: Config, s: Service, answer: Answer)
    requires s.active.Some? && !s.active.value.phase.AwaitSignature? && Resume(c, s, answer).Some? && BasesInv(s)
    ensures var after := Resume(c, s, answer).value;
            && BasesInv(after) && after.returned == s.returned && after.issued == s.issued
            && (after.active.Some? ==> after.active.value.room == s.active.value.room)
  {
    var room, request := s.active.value.room, s.active.value.request;
    match s.active.value.phase
    case AwaitHead =>
    case AwaitSender(head, raw) =>
      var v := Vet(c, room, request, head, raw, answer.sender, answer.limited);
      if v.Ok? {
        ClaimIsBased(c, room, s.pending, s.issued, v.value, ZeroContent, None);
      }
    case AwaitDeposit(v) =>
    case AwaitBlock(v, entry) =>
      var content := ReadBlock(room, v, entry, answer.hash);
      if content.Ok? {
        ClaimIsBased(c, room, s.pending, s.issued, v, content.value, Some(entry));
      }
    case AwaitCursor(v, claim) =>
  }

  /** A signature either returns nothing or returns the receipt of the claim. */
  lemma SignedIsBased(c: Config, s: Service, answer: Answer)
    requires s.active.Some? && s.active.value.phase.AwaitSignature? && answer.Signature? && BasesInv(s)
    ensures var after := Resume(c, s, answer).value;
            && BasesInv(after) && after.active.None?
            && (|| after.returned == s.returned
                || (&& |after.returned| == |s.returned| + 1 && after.returned[..|s.returned|] == s.returned
                    && after.returned[|s.returned|].base == Base(s.active.value.room)))
  {
  }

  lemma NextKeepsBases(c: Config, s: Service, step: Step)
    requires BasesInv(s) && Next(c, s, step).Some?
    ensures BasesInv(Next(c, s, step).value)
  {
    if step.Answered? {
      if s.active.value.phase.AwaitSignature? {
        SignedIsBased(c, s, step.answer);
      } else {
        ResumedIsBased(c, s, step.answer);
      }
    }
  }

  lemma {:induction false} RunKeepsBases(c: Config, archive: Option<Room>, disk: nat, steps: seq<Step>)
    requires Run(c, archive, disk, steps).Some?
    ensures BasesInv(Run(c, archive, disk, steps).value)
  {
    if steps != [] {
      RunKeepsBases(c, archive, disk, steps[..|steps| - 1]);
      NextKeepsBases(c, Run(c, archive, disk, steps[..|steps| - 1]).value, steps[|steps| - 1]);
    }
  }

  /**
   * In every run whatever, restarts, rewinds and a forgotten record included:
   * the returned ids strictly increase if and only if each submission that
   * returned had opened an archive accounting for every id returned before.
   */
  lemma IdsRiseIff(c: Config, archive: Option<Room>, disk: nat, steps: seq<Step>)
    requires Run(c, archive, disk, steps).Some?
    ensures var returned := Run(c, archive, disk, steps).value.returned;
            Rising(returned) <==> forall j :: 0 <= j < |returned| ==> AtMost(returned[..j], returned[j].base)
  {
    RunKeepsBases(c, archive, disk, steps);
    var returned := Run(c, archive, disk, steps).value.returned;
    if Rising(returned) {
      forall j | 0 <= j < |returned|
        ensures AtMost(returned[..j], returned[j].base)
      {
        assert forall i :: 0 <= i < j ==> returned[..j][i] == returned[i];
      }
    }
    if forall j :: 0 <= j < |returned| ==> AtMost(returned[..j], returned[j].base) {
      forall i, j | 0 <= i < j < |returned|
        ensures returned[i].entry.receipt.admissionId < returned[j].entry.receipt.admissionId
      {
        assert AtMost(returned[..j], returned[j].base);
        assert returned[..j][i] == returned[i];
      }
    }
  }

  // ----- What a caller can check before a submission

  /** How far one submission has got since it opened `room`, with `before` returned by then. */
  predicate Underway(s: Service, room: Room, before: seq<Issue>) {
    && BasesInv(s)
    && if s.active.Some? then s.active.value.room == room && s.returned == before
       else
         || s.returned == before
         || (|s.returned| == |before| + 1 && s.returned[..|before|] == before && s.returned[|before|].base == Base(room))
  }

  lemma StaysUnderway(c: Config, s: Service, step: Step, room: Room, before: seq<Issue>)
    requires Underway(s, room, before) && !step.Begin? && !step.Restart? && Next(c, s, step).Some?
    ensures Underway(Next(c, s, step).value, room, before)
  {
    if step.Answered? {
      if s.active.value.phase.AwaitSignature? {
        SignedIsBased(c, s, step.answer);
      } else {
        ResumedIsBased(c, s, step.answer);
      }
    }
  }

  lemma {:induction false} SubmissionUnderway(c: Config, s: Service, rest: seq<Step>, room: Room, before: seq<Issue>)
    requires Underway(s, room, before) && RunFrom(c, s, rest).Some?
    requires forall k :: 0 <= k < |rest| ==> !rest[k].Begin? && !rest[k].Restart?
    ensures Underway(RunFrom(c, s, rest).value, room, before)
  {
    if rest != [] {
      SubmissionUnderway(c, s, rest[..|rest| - 1], room, before);
      StaysUnderway(c, RunFrom(c, s, rest[..|rest| - 1]).value, rest[|rest| - 1], room, before);
    }
  }

  /**
   * Take any run with rising ids and any further submission. Whatever happens
   * until it returns, its id rises above them all if and only if the archive it
   * opened accounted for every one of them.
   */
  lemma SubmissionRisesIff(
      c: Config, archive: Option<Room>, disk: nat, steps: seq<Step>, request: Request, rest: seq<Step>)
    requires Run(c, archive, disk, steps).Some?
    requires var s := Run(c, archive, disk, steps).value;
             && s.active.None? && Rising(s.returned) && OpenRoom(c, s.archive).Ok?
             && RunFrom(c, Next(c, s, Begin(request)).value, rest).Some?
    requires forall k :: 0 <= k < |rest| ==> !rest[k].Begin? && !rest[k].Restart?
    ensures var s := Run(c, archive, disk, steps).value;
            var after := RunFrom(c, Next(c, s, Begin(request)).value, rest).value;
            after.returned != s.returned ==>
              && |after.returned| == |s.returned| + 1
              && (Rising(after.returned) <==> AtMost(s.returned, Base(s.archive.value)))
  {
    var s := Run(c, archive, disk, steps).value;
    RunKeepsBases(c, archive, disk, steps);
    SubmissionUnderway(c, Next(c, s, Begin(request)).value, rest, s.archive.value, s.returned);
    var after := RunFrom(c, Next(c, s, Begin(request)).value, rest).value;
    if after.returned != s.returned {
      LastRisesIff(s.returned, after.returned);
    }
  }

  lemma LastRisesIff(before: seq<Issue>, after: seq<Issue>)
    requires Rising(before) && |after| == |before| + 1 && after[..|before|] == before
    requires after[|before|].entry.receipt.admissionId == after[|before|].base + 1
    ensures Rising(after) <==> AtMost(before, after[|before|].base)
  {
    assert forall i :: 0 <= i < |before| ==> after[i] == before[i];
  }

  /** The archive about to be opened, or the record in memory, accounts for every id returned. */
  predicate KnowsIds(c: Config, s: Service) {
    OpenRoom(c, s.archive).Ok? ==> AtMost(s.returned, s.issued) || AtMost(s.returned, Base(s.archive.value))
  }

  predicate RiseInv(c: Config, s: Service) {
    && Rising(s.returned) && Bounded(s.returned) && BasesInv(s)
    && (s.active.Some? ==>
          && ClaimAhead(s.active.value.phase, s.issued)
          && (AtMost(s.returned, s.issued) || AtMost(s.returned, Base(s.active.value.room))))
  }

  lemma NextKeepsRise(c: Config, s: Service, step: Step)
    requires RiseInv(c, s) && Next(c, s, step).Some?
    requires step.Begin? ==> KnowsIds(c, s)
    ensures RiseInv(c, Next(c, s, step).value)
  {
    NextKeepsBases(c, s, step);
    if step.Answered? && !s.active.value.phase.AwaitSignature? {
      ResumedIsAhead(c, s, step.answer);
      ResumedIsBased(c, s, step.answer);
    }
  }

  ghost predicate BeginsKnowing(c: Config, archive: Option<Room>, disk: nat, steps: seq<Step>) {
    forall k :: 0 <= k < |steps| && steps[k].Begin? && Run(c, archive, disk, steps[..k]).Some? ==>
      KnowsIds(c, Run(c, archive, disk, steps[..k]).value)
  }

  /**
   * Without a path for the id record, restarts included: ids strictly increase
   * while each submission begins on an archive, or a memory, that accounts for
   * the ids already returned.
   */
  lemma {:induction false} IdsRiseWhileKnown(c: Config, archive: Option<Room>, disk: nat, steps: seq<Step>)
    requires BeginsKnowing(c, archive, disk, steps) && Run(c, archive, disk, steps).Some?
    ensures RiseInv(c, Run(c, archive, disk, steps).value)
  {
    if steps != [] {
      var front := steps[..|steps| - 1];
      forall k | 0 <= k < |front| && front[k].Begin? && Run(c, archive, disk, front[..k]).Some?
        ensures KnowsIds(c, Run(c, archive, disk, front[..k]).value)
      {
        assert front[..k] == steps[..k];
      }
      IdsRiseWhileKnown(c, archive, disk, front);
      NextKeepsRise(c, Run(c, archive, disk, front).value, steps[|steps| - 1]);
    }
  }
}
