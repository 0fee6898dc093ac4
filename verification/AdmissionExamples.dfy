/** Concrete runs of the admission service in which a guarantee fails once its guard does. */
module AdmissionExamples {
  import opened Wrappers
  import opened HexText
  import opened Admission
  import opened AdmissionGuarantees
  import opened AdmissionDelivery
  import opened AdmissionRestarts
  import opened AdmissionExposure

  const SIGNER := "0xaa"
  const SENDER := "0xbb"
  const FIRST := "0x0001"
  const SECOND := "0x0002"
  const EMPTY_ROOM := Room(true, true, Some(SIGNER), 9, 0, 1, 0, 10, 0, 0, 0, 0, [], [], None)

  function Service0(durableIds: bool): Config {
    Config(SIGNER, true, durableIds, 0, 0, 0, 8)
  }

  function Ask(raw: string): Request {
    Request(raw, "0", "5", "1", None)
  }

  function Accepted(raw: string): Vetted {
    Vetted(0, raw, SENDER, 0, 5, 1, 0)
  }

  lemma Numbers()
    ensures Uint("0") == Ok(0) && Uint("1") == Ok(1) && Uint("5") == Ok(5)
  {
    forall d: string | |d| == 1 && IsDigit(d[0])
      ensures DecimalValue(d) == d[0] as int - '0' as int
    {
      assert d[..0] == [];
    }
  }

  lemma RunPush(c: Config, archive: Option<Room>, disk: nat, steps: seq<Step>, step: Step)
    requires Run(c, archive, disk, steps).Some?
    ensures Run(c, archive, disk, steps + [step]) == Next(c, Run(c, archive, disk, steps).value, step)
  {
    assert (steps + [step])[..|steps|] == steps;
  }

  /** A room of the example with what has been written to it since. */
  predicate IsExample(room: Room) {
    room == EMPTY_ROOM.(rows := room.rows, revision := room.revision)
  }

  /** The example service would take this transaction. */
  predicate Takes(s: Service, raw: string) {
    && s.active.None? && s.archive.Some? && IsExample(s.archive.value)
    && CleanHex(raw) == Ok(raw) && 4 <= |raw| <= 10
    && PendingCount(s.archive.value.rows) < 9 && !HashKnown(s.archive.value.rows, Keccak(raw))
    && Base(s.archive.value) >= s.issued && |s.pending| < 8
  }

  /** What the checks between the awaits make of the example's request. */
  lemma Vets(durableIds: bool, room: Room, raw: string)
    requires IsExample(room) && CleanHex(raw) == Ok(raw) && 4 <= |raw| <= 10
    requires PendingCount(room.rows) < 9 && !HashKnown(room.rows, Keccak(raw))
    ensures OpenRoom(Service0(durableIds), Some(room)) == Ok(room)
    ensures HearHead(Service0(durableIds), room, Ask(raw), Some(0)) == Ok(AwaitSender(0, raw))
    ensures Vet(Service0(durableIds), room, Ask(raw), 0, raw, Some(SENDER), false) == Ok(Accepted(raw))
  {
    Numbers();
  }

  lemma ClaimIsNamed(c: Config, room: Room, pending: seq<Queued>, issued: nat, v: Vetted)
    requires ClaimId(c, room, pending, issued, v, ZeroContent, None).Ok?
    ensures ClaimId(c, room, pending, issued, v, ZeroContent, None)
            == Ok(AwaitCursor(v, Claim(Base(room), Base(room) + 1, Unexpired(pending, v.head), ZeroContent, None)))
  {
  }

  lemma TakesId(c: Config, room: Room, pending: seq<Queued>, issued: nat, v: Vetted)
    requires v.deadline >= v.head + c.minimumLead && v.deadline <= v.head + room.window && v.maximumBatch > room.latestBatch
    requires Base(room) >= issued && |pending| < c.maximumPending
    ensures ClaimId(c, room, pending, issued, v, ZeroContent, None).Ok?
  {
  }

  /** The three stretches up to the claim. */
  lemma Claims(durableIds: bool, archive: Option<Room>, disk: nat, steps: seq<Step>, s: Service, raw: string) returns (more: seq<Step>)
    requires Run(Service0(durableIds), archive, disk, steps) == Some(s) && Takes(s, raw)
    ensures var room := s.archive.value;
            var claim := Claim(Base(room), Base(room) + 1, Unexpired(s.pending, 0), ZeroContent, None);
            Run(Service0(durableIds), archive, disk, more)
            == Some(s.(active := Some(Attempt(Ask(raw), room, AwaitCursor(Accepted(raw), claim))), heads := s.heads + {0}))
  {
    var c := Service0(durableIds);
    Vets(durableIds, s.archive.value, raw);
    TakesId(c, s.archive.value, s.pending, s.issued, Accepted(raw));
    ClaimIsNamed(c, s.archive.value, s.pending, s.issued, Accepted(raw));
    var begin, head, sender := Begin(Ask(raw)), Answered(Head(Some(0))), Answered(Sender(Some(SENDER), false));
    RunPush(c, archive, disk, steps, begin);
    RunPush(c, archive, disk, steps + [begin], head);
    RunPush(c, archive, disk, steps + [begin] + [head], sender);
    more := steps + [begin] + [head] + [sender];
  }

  /** The two stretches after it. */
  lemma Publishes(durableIds: bool, archive: Option<Room>, disk: nat, steps: seq<Step>, s: Service) returns (more: seq<Step>)
    requires Run(Service0(durableIds), archive, disk, steps) == Some(s)
    requires s.active.Some? && s.active.value.phase.AwaitCursor? && s.archive == Some(s.active.value.room)
    requires s.active.value.phase.claim.id > s.issued
    ensures Run(Service0(durableIds), archive, disk, more).Some?
    ensures var after, a := Run(Service0(durableIds), archive, disk, more).value, s.active.value;
            var p := a.phase;
            var entry := Queued(Sign(a.room, p.v, p.claim, ""), p.v.raw, p.v.sender);
            && after.active.None? && after.issued == p.claim.id && after.life == s.life
            && after.archive == Some(a.room.(rows := a.room.rows + [RowOf(entry.receipt)],
                                             revision := Some((if a.room.revision.None? then 0 else a.room.revision.value) + 1)))
            && after.pending == p.claim.queue + [entry] && after.handed == s.handed
            && |after.returned| == |s.returned| + 1 && after.returned[..|s.returned|] == s.returned
            && after.returned[|s.returned|].entry == entry && after.returned[|s.returned|].life == s.life
  {
    var c := Service0(durableIds);
    var id := s.active.value.phase.claim.id;
    var cursor, sign := Answered(Cursor(Some(id))), Answered(Signature(Some(""), false, false));
    RunPush(c, archive, disk, steps, cursor);
    RunPush(c, archive, disk, steps + [cursor], sign);
    more := steps + [cursor] + [sign];
  }

  lemma ExampleBytes()
    ensures CleanHex(FIRST) == Ok(FIRST) && CleanHex(SECOND) == Ok(SECOND)
  {
    assert Lower(FIRST) == FIRST;
    assert Lower(SECOND) == SECOND;
  }

  /** The first submission of a fresh service. */
  lemma FirstReceipt(durableIds: bool) returns (steps: seq<Step>)
    ensures Run(Service0(durableIds), Some(EMPTY_ROOM), 0, steps).Some?
    ensures var s := Run(Service0(durableIds), Some(EMPTY_ROOM), 0, steps).value;
            && |s.returned| == 1 && s.returned[0].entry.receipt.admissionId == 1 && s.returned[0].life == s.life == 0
            && s.pending == [s.returned[0].entry] && s.returned[0].entry.receipt.deadline == 5 && s.handed == []
            && s.active.None? && s.issued == 1 && s.archive.Some? && IsExample(s.archive.value)
            && s.archive.value.rows == [RowOf(s.returned[0].entry.receipt)]
            && s.returned[0].entry.receipt.transactionHash == Keccak(FIRST)
  {
    ExampleBytes();
    var s := Start(Service0(durableIds), Some(EMPTY_ROOM), 0);
    assert MaximumId([]) == 0;
    assert Unexpired([], 0) == [];
    var claimed := Claims(durableIds, Some(EMPTY_ROOM), 0, [], s, FIRST);
    steps := Publishes(durableIds, Some(EMPTY_ROOM), 0, claimed, Run(Service0(durableIds), Some(EMPTY_ROOM), 0, claimed).value);
  }

  /**
   * A drain between the second submission's claim and its receipt: the first
   * receipt has been handed out and is queued again.
   */
  lemma DrainedRowsComeBack() returns (steps: seq<Step>)
    ensures Run(Service0(true), Some(EMPTY_ROOM), 0, steps).Some?
    ensures var s := Run(Service0(true), Some(EMPTY_ROOM), 0, steps).value;
            && |s.returned| == 2 && s.returned[0].entry in s.handed && s.returned[0].entry in s.pending
            && !Once(s)
  {
    var c := Service0(true);
    ExampleBytes();
    var first := FirstReceipt(true);
    var s := Run(c, Some(EMPTY_ROOM), 0, first).value;
    var entry := s.returned[0].entry;
    assert s.archive.value.rows[..0] == [] && s.pending[..0] == [];
    assert Unexpired([entry], 0) == [entry];
    var claimed := Claims(true, Some(EMPTY_ROOM), 0, first, s, SECOND);
    RunPush(c, Some(EMPTY_ROOM), 0, claimed, Drain);
    var drained := claimed + [Drain];
    steps := Publishes(true, Some(EMPTY_ROOM), 0, drained, Run(c, Some(EMPTY_ROOM), 0, drained).value);
    assert entry in Run(c, Some(EMPTY_ROOM), 0, steps).value.handed;
  }

  /**
   * With no path for the id record: a restart, an archive put back to what it
   * was, and the same transaction is promised the same id a second time.
   */
  lemma ForgottenIdIsReissued() returns (steps: seq<Step>)
    ensures Run(Service0(false), Some(EMPTY_ROOM), 0, steps).Some?
    ensures var returned := Run(Service0(false), Some(EMPTY_ROOM), 0, steps).value.returned;
            && |returned| == 2 && returned[0].entry.receipt.admissionId == returned[1].entry.receipt.admissionId == 1
            && returned[0].life != returned[1].life
  {
    var c, found := Service0(false), Some(EMPTY_ROOM);
    ExampleBytes();
    var first := FirstReceipt(false);
    RunPush(c, found, 0, first, Restart);
    RunPush(c, found, 0, first + [Restart], Replace(found));
    var rewound := first + [Restart] + [Replace(found)];
    var s := Run(c, found, 0, rewound).value;
    assert MaximumId([]) == 0;
    assert Unexpired([], 0) == [];
    var claimed := Claims(false, found, 0, rewound, s, FIRST);
    steps := Publishes(false, found, 0, claimed, Run(c, found, 0, claimed).value);
  }

  /** The stretch after the claim, with a disk that refuses the id. */
  lemma Fails(archive: Option<Room>, disk: nat, steps: seq<Step>, s: Service) returns (more: seq<Step>)
    requires Run(Service0(true), archive, disk, steps) == Some(s)
    requires s.active.Some? && s.active.value.phase.AwaitCursor? && s.archive == Some(s.active.value.room)
    requires s.active.value.phase.claim.id > s.issued
    ensures Run(Service0(true), archive, disk, more).Some?
    ensures var after, a := Run(Service0(true), archive, disk, more).value, s.active.value;
            && after.active.None? && after.issued == a.phase.claim.id && after.returned == s.returned && after.pending == s.pending
            && after.archive == Some(a.room.(rows := a.room.rows + [RowOf(Sign(a.room, a.phase.v, a.phase.claim, ""))],
                                             revision := Some((if a.room.revision.None? then 0 else a.room.revision.value) + 1)))
  {
    var c := Service0(true);
    var cursor, sign := Answered(Cursor(Some(s.active.value.phase.claim.id))), Answered(Signature(Some(""), false, true));
    RunPush(c, archive, disk, steps, cursor);
    RunPush(c, archive, disk, steps + [cursor], sign);
    more := steps + [cursor] + [sign];
  }

  /**
   * The first receipt is archived, its id record fails and it is never
   * returned; the next submission returns id two.
   */
  lemma FailedRecordLeavesGap() returns (steps: seq<Step>)
    ensures Run(Service0(true), Some(EMPTY_ROOM), 0, steps).Some?
    ensures var returned := Run(Service0(true), Some(EMPTY_ROOM), 0, steps).value.returned;
            && Base(EMPTY_ROOM) == 0 && |returned| == 1 && returned[0].entry.receipt.admissionId == 2
            && !Consecutive(returned, Base(EMPTY_ROOM))
  {
    var c := Service0(true);
    ExampleBytes();
    assert MaximumId([]) == 0;
    assert Unexpired([], 0) == [];
    var claimed := Claims(true, Some(EMPTY_ROOM), 0, [], Start(c, Some(EMPTY_ROOM), 0), FIRST);
    var failed := Fails(Some(EMPTY_ROOM), 0, claimed, Run(c, Some(EMPTY_ROOM), 0, claimed).value);
    var s := Run(c, Some(EMPTY_ROOM), 0, failed).value;
    assert s.archive.value.rows[..0] == [];
    var again := Claims(true, Some(EMPTY_ROOM), 0, failed, s, SECOND);
    steps := Publishes(true, Some(EMPTY_ROOM), 0, again, Run(c, Some(EMPTY_ROOM), 0, again).value);
  }
}
