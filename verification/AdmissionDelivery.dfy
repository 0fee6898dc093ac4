/** When a queued receipt reaches the operator exactly once, and the drain that makes it arrive twice. */
module AdmissionDelivery {
  import opened Wrappers
  import opened HexText
  import opened Admission
  import opened AdmissionGuarantees

  /** No row waits or was handed out more than once in all. */
  predicate Once(s: Service) {
    && (forall i, j :: 0 <= i < j < |s.pending| ==> s.pending[i] != s.pending[j])
    && (forall i, j :: 0 <= i < j < |s.handed| ==> s.handed[i] != s.handed[j])
    && (forall q :: q in s.pending ==> q !in s.handed)
  }

  predicate Issued(rows: seq<Queued>, limit: nat) {
    forall q :: q in rows ==> q.receipt.admissionId <= limit
  }

  /** The snapshot a submission will write back: rows without repetition, none of them handed out. */
  predicate FreshSnapshot(p: Phase, handed: seq<Queued>, issued: nat) {
    HasClaim(p) ==>
      && (forall i, j :: 0 <= i < j < |p.claim.queue| ==> p.claim.queue[i] != p.claim.queue[j])
      && (forall q :: q in p.claim.queue ==> q !in handed)
      && Issued(p.claim.queue, issued)
  }

  predicate OnceInv(c: Config, s: Service) {
    && Once(s)
    && Issued(s.pending, s.issued) && Issued(s.handed, s.issued)
    && (c.durableIds ==> Issued(s.pending, s.disk) && Issued(s.handed, s.disk))
    && (s.active.Some? ==> FreshSnapshot(s.active.value.phase, s.handed, s.issued))
  }

  /** A submission holds a snapshot that still shares a row with the queue. */
  predicate SharesSnapshot(s: Service) {
    && s.active.Some? && HasClaim(s.active.value.phase)
    && exists q :: q in s.pending && q in s.active.value.phase.claim.queue
  }

  lemma {:induction false} UnexpiredOnce(queue: seq<Queued>, head: nat)
    requires forall i, j :: 0 <= i < j < |queue| ==> queue[i] != queue[j]
    ensures forall i, j :: 0 <= i < j < |Unexpired(queue, head)| ==> Unexpired(queue, head)[i] != Unexpired(queue, head)[j]
  {
    if queue != [] {
      UnexpiredOnce(queue[..|queue| - 1], head);
    }
  }

  lemma ClaimedIsFresh(
      c: Config, s: Service, room: Room, v: Vetted, content: Content, entry: Option<ChainDeposit>)
    requires OnceInv(c, s)
    ensures var p := ClaimId(c, room, s.pending, s.issued, v, content, entry);
            p.Ok? ==> FreshSnapshot(p.value, s.handed, s.issued)
  {
    UnexpiredOnce(s.pending, v.head);
  }

  lemma ResumedIsFresh(c: Config, s: Service, answer: Answer)
    requires OnceInv(c, s) && s.active.Some? && !s.active.value.phase.AwaitSignature?
    requires Resume(c, s, answer).Some?
    ensures OnceInv(c, Resume(c, s, answer).value)
  {
    var room, request := s.active.value.room, s.active.value.request;
    match s.active.value.phase
    case AwaitHead =>
    case AwaitSender(head, raw) =>
      var v := Vet(c, room, request, head, raw, answer.sender, answer.limited);
      if v.Ok? {
        ClaimedIsFresh(c, s, room, v.value, ZeroContent, None);
      }
    case AwaitDeposit(v) =>
    case AwaitBlock(v, entry) =>
      var content := ReadBlock(room, v, entry, answer.hash);
      if content.Ok? {
        ClaimedIsFresh(c, s, room, v, content.value, Some(entry));
      }
    case AwaitCursor(v, claim) =>
  }

  lemma PublishKeepsOnce(c: Config, s: Service, answer: Answer)
    requires OnceInv(c, s) && s.active.Some? && s.active.value.phase.AwaitSignature? && answer.Signature?
    requires s.active.value.phase.claim.id > s.issued
    requires c.durableIds ==> s.disk <= s.issued
    ensures OnceInv(c, Resume(c, s, answer).value)
  {
    var after, claim := Resume(c, s, answer).value, s.active.value.phase.claim;
    if after.returned != s.returned {
      var entry := after.returned[|s.returned|].entry;
      assert after.pending == claim.queue + [entry] && entry.receipt.admissionId == claim.id;
      assert entry !in s.handed && entry !in claim.queue;
    }
  }

  lemma NextKeepsOnce(c: Config, s: Service, step: Step)
    requires IdsInv(c, s) && OnceInv(c, s) && Next(c, s, step).Some?
    requires c.durableIds ==> s.disk <= s.issued
    requires step.Restart? ==> c.durableIds
    requires step.Drain? ==> !SharesSnapshot(s)
    ensures OnceInv(c, Next(c, s, step).value)
    ensures c.durableIds ==> Next(c, s, step).value.disk <= Next(c, s, step).value.issued
  {
    if step.Answered? {
      if s.active.value.phase.AwaitSignature? {
        PublishKeepsOnce(c, s, step.answer);
      } else {
        ResumedIsFresh(c, s, step.answer);
      }
    } else if step.Drain? {
      DrainKeepsOnce(c, s);
    }
  }

  /** Outside every snapshot, what is drained has never been handed out and will not be written back. */
  lemma DrainKeepsOnce(c: Config, s: Service)
    requires OnceInv(c, s) && !SharesSnapshot(s)
    ensures OnceInv(c, Next(c, s, Drain).value)
  {
    var after := Next(c, s, Drain).value;
    forall i, j | 0 <= i < j < |after.handed|
      ensures after.handed[i] != after.handed[j]
    {
      if j >= |s.handed| {
        assert after.handed[j] == s.pending[j - |s.handed|];
        if i >= |s.handed| {
          assert after.handed[i] == s.pending[i - |s.handed|];
        } else {
          assert after.handed[i] in s.handed;
        }
      }
    }
  }

  // ----- Whole runs

  /** No drain falls between a submission's snapshot and its write-back while the two share a row. */
  ghost predicate DrainsClear(c: Config, archive: Option<Room>, disk: nat, steps: seq<Step>) {
    forall k :: 0 <= k < |steps| && steps[k].Drain? && Run(c, archive, disk, steps[..k]).Some? ==>
      !SharesSnapshot(Run(c, archive, disk, steps[..k]).value)
  }

  lemma {:induction false} RunKeepsOnce(c: Config, archive: Option<Room>, disk: nat, steps: seq<Step>)
    requires RecordSurvives(c, steps) && DrainsClear(c, archive, disk, steps) && Run(c, archive, disk, steps).Some?
    ensures var s := Run(c, archive, disk, steps).value; OnceInv(c, s) && (c.durableIds ==> s.disk <= s.issued)
  {
    if steps != [] {
      var front := steps[..|steps| - 1];
      forall k | 0 <= k < |front| && front[k].Drain? && Run(c, archive, disk, front[..k]).Some?
        ensures !SharesSnapshot(Run(c, archive, disk, front[..k]).value)
      {
        assert front[..k] == steps[..k];
      }
      RunKeepsOnce(c, archive, disk, front);
      RunKeepsIds(c, archive, disk, front);
      NextKeepsOnce(c, Run(c, archive, disk, front).value, steps[|steps| - 1]);
    }
  }

  /** Some head the service read had reached the row's deadline. */
  predicate Expired(q: Queued, heads: set<nat>) {
    exists h :: h in heads && q.receipt.deadline <= h
  }

  /**
   * With every drain clear of the snapshots, a receipt returned since the last
   * restart and not yet expired is in the queue or was handed out, never both
   * and never twice.
   */
  lemma DeliveredExactlyOnce(c: Config, archive: Option<Room>, disk: nat, steps: seq<Step>, i: nat)
    requires RecordSurvives(c, steps) && DrainsClear(c, archive, disk, steps) && Run(c, archive, disk, steps).Some?
    requires i < |Run(c, archive, disk, steps).value.returned|
    requires Run(c, archive, disk, steps).value.returned[i].life == Run(c, archive, disk, steps).value.life
    ensures var s := Run(c, archive, disk, steps).value;
            && Once(s)
            && (!Expired(s.returned[i].entry, s.heads) ==>
                  (s.returned[i].entry in s.pending <==> s.returned[i].entry !in s.handed))
  {
    RunKeepsOnce(c, archive, disk, steps);
    NoReceiptIsLost(c, archive, disk, steps, i);
  }

  // ----- Exactly which drains are safe

  /** The service after these steps, taken from any state. */
  function RunFrom(c: Config, s: Service, steps: seq<Step>): Option<Service> {
    if steps == [] then Some(s)
    else
      var before := RunFrom(c, s, steps[..|steps| - 1]);
      if before.None? then None else Next(c, before.value, steps[|steps| - 1])
  }

  /** Later drains are clear too, and a restart finds the ids. */
  ghost predicate Clear(c: Config, s: Service, steps: seq<Step>) {
    forall k :: 0 <= k < |steps| && RunFrom(c, s, steps[..k]).Some? ==>
      && (steps[k].Drain? ==> !SharesSnapshot(RunFrom(c, s, steps[..k]).value))
      && (steps[k].Restart? ==> c.durableIds)
  }

  ghost predicate StaysOnce(c: Config, s: Service) {
    forall later :: Clear(c, s, later) && RunFrom(c, s, later).Some? ==> Once(RunFrom(c, s, later).value)
  }

  lemma {:induction false} ClearRunsKeepOnce(c: Config, s: Service, steps: seq<Step>)
    requires IdsInv(c, s) && OnceInv(c, s) && (c.durableIds ==> s.disk <= s.issued)
    requires Clear(c, s, steps) && RunFrom(c, s, steps).Some?
    ensures var after := RunFrom(c, s, steps).value;
            IdsInv(c, after) && OnceInv(c, after) && (c.durableIds ==> after.disk <= after.issued)
  {
    if steps != [] {
      var front := steps[..|steps| - 1];
      forall k | 0 <= k < |front| && RunFrom(c, s, front[..k]).Some?
        ensures front[k].Drain? ==> !SharesSnapshot(RunFrom(c, s, front[..k]).value)
        ensures front[k].Restart? ==> c.durableIds
      {
        assert front[..k] == steps[..k];
      }
      ClearRunsKeepOnce(c, s, front);
      NextKeepsIds(c, RunFrom(c, s, front).value, steps[|steps| - 1]);
      NextKeepsOnce(c, RunFrom(c, s, front).value, steps[|steps| - 1]);
    }
  }

  lemma RunFromPush(c: Config, s: Service, steps: seq<Step>, step: Step)
    requires RunFrom(c, s, steps).Some?
    ensures RunFrom(c, s, steps + [step]) == Next(c, RunFrom(c, s, steps).value, step)
  {
    assert (steps + [step])[..|steps|] == steps;
  }

  /** A submission that has its claim returns its receipt if the archive, the cursor and the signer let it. */
  lemma ClaimCompletes(c: Config, s: Service) returns (later: seq<Step>)
    requires s.active.Some? && HasClaim(s.active.value.phase)
    ensures RunFrom(c, s, later).Some?
    ensures var after := RunFrom(c, s, later).value;
            && after.handed == s.handed && |after.pending| == |s.active.value.phase.claim.queue| + 1
            && s.active.value.phase.claim.queue <= after.pending
    ensures forall k :: 0 <= k < |later| ==> !later[k].Drain? && !later[k].Restart?
  {
    var a := s.active.value;
    var replace, answer := Replace(Some(a.room)), Answered(Cursor(Some(a.phase.claim.id)));
    var sign := Answered(Signature(Some(""), false, false));
    assert RunFrom(c, s, []) == Some(s);
    RunFromPush(c, s, [], replace);
    var first := [] + [replace];
    var replaced := RunFrom(c, s, first).value;
    if a.phase.AwaitCursor? {
      RunFromPush(c, s, first, answer);
      RunFromPush(c, s, first + [answer], sign);
      later := first + [answer] + [sign];
    } else {
      RunFromPush(c, s, first, sign);
      later := first + [sign];
    }
  }

  /** A drain is safe whatever follows exactly when no snapshot in flight shares a row with the queue. */
  lemma DrainIsSafeIff(c: Config, s: Service)
    requires IdsInv(c, s) && OnceInv(c, s) && (c.durableIds ==> s.disk <= s.issued)
    ensures StaysOnce(c, Next(c, s, Drain).value) <==> !SharesSnapshot(s)
  {
    var after := Next(c, s, Drain).value;
    if SharesSnapshot(s) {
      var later := ClaimCompletes(c, after);
      assert Clear(c, after, later);
      var q :| q in s.pending && q in s.active.value.phase.claim.queue;
      var end := RunFrom(c, after, later).value;
      assert q in end.handed;
      assert q in end.pending;
    } else {
      DrainKeepsOnce(c, s);
      forall later | Clear(c, after, later) && RunFrom(c, after, later).Some?
        ensures Once(RunFrom(c, after, later).value)
      {
        ClearRunsKeepOnce(c, after, later);
      }
    }
  }
}
