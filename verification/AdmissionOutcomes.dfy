/** Exactly when a submission that nothing interrupts ends in a receipt, and in which one. */
module AdmissionOutcomes {
  import opened Wrappers
  import opened HexText
  import opened Admission

  /** What every party would answer, if asked. */
  datatype Answers = Answers(
    head: Option<nat>, sender: Option<string>, limited: bool,
    deposit: Option<Option<ChainDeposit>>, hash: Option<Option<string>>, cursor: Option<nat>,
    signature: Option<string>, putFails: bool, diskFails: bool)

  function AnswerFor(a: Answers, phase: Phase): Answer {
    match phase
    case AwaitHead => Head(a.head)
    case AwaitSender(_, _) => Sender(a.sender, a.limited)
    case AwaitDeposit(_) => DepositEntry(a.deposit)
    case AwaitBlock(_, _) => BlockHash(a.hash)
    case AwaitCursor(_, _) => Cursor(a.cursor)
    case AwaitSignature(_, _, _) => Signature(a.signature, a.putFails, a.diskFails)
  }

  /** Answer the submission in flight, at most `n` times, until it is over. */
  function Driven(c: Config, s: Service, a: Answers, n: nat): Service
    decreases n
  {
    if n == 0 || s.active.None? then s
    else Driven(c, Resume(c, s, AnswerFor(a, s.active.value.phase)).value, a, n - 1)
  }

  /** One whole submission: six answers are the most it asks for. */
  function Submitted(c: Config, s: Service, request: Request, a: Answers): Service
    requires s.active.None?
  {
    Driven(c, Next(c, s, Begin(request)).value, a, 6)
  }

  // ----- The conditions, one stretch at a time

  predicate Admitting(c: Config, archive: Option<Room>) {
    && archive.Some? && archive.value.open && archive.value.validityOnly
    && archive.value.signer.Some? && Lower(archive.value.signer.value) == Lower(c.signer)
  }

  predicate HeadCurrent(c: Config, room: Room, head: Option<nat>) {
    head.Some? && room.latestObserved <= head.value <= room.latestObserved + c.maximumLag
  }

  predicate RawUsable(raw: string) {
    CleanHex(raw).Ok? && 4 <= |raw| && (|raw| - 2) / 2 <= 131072
  }

  function PendingRows(rows: seq<Row>): set<nat> {
    set i: nat | i < |rows| && rows[i].status.Pending?
  }

  /** One more promise fits under the bond, and the transaction has none yet. */
  ghost predicate RoomFor(room: Room, raw: string) {
    && room.minimumBond <= room.bond && room.penalty > 0
    && (|PendingRows(room.rows)| + 1) * room.penalty <= room.bond
    && forall row :: row in room.rows ==> row.transactionHash != Keccak(raw)
  }

  /** The number a text stands for, or zero where it is none. */
  function NumberIn(text: string): nat {
    if IsDecimal(text) then DecimalValue(text) else 0
  }

  predicate NumbersUsable(c: Config, request: Request) {
    && IsDecimal(request.depositInboxId) && IsDecimal(request.deadline) && IsDecimal(request.maximumBatch)
    && (request.fee.Some? ==> IsDecimal(request.fee.value))
    && (if request.fee.Some? then NumberIn(request.fee.value) else 0) >= c.minimumFee
  }

  /** The first deposit the archive lists under an id. */
  predicate FirstNamed(deposits: seq<Deposit>, k: nat, inboxId: nat) {
    k < |deposits| && deposits[k].inboxId == inboxId && forall i :: 0 <= i < k ==> deposits[i].inboxId != inboxId
  }

  ghost predicate NamedLive(c: Config, room: Room, inboxId: nat) {
    && (exists k: nat :: FirstNamed(room.deposits, k, inboxId) && room.deposits[k].live)
    && (c.devChain || room.minimumConfirmations >= 12)
  }

  predicate EntryUsable(room: Room, entry: ChainDeposit, sender: string, head: nat) {
    && !entry.consumed && !entry.refunded && Lower(entry.beneficiary) == Lower(sender)
    && entry.queuedAtBlock + room.minimumConfirmations <= head
  }

  predicate EntryAgrees(row: Deposit, entry: ChainDeposit, hash: string) {
    && hash != "" && Lower(hash) == Lower(row.queuedAtBlockHash)
    && Lower(entry.depositor) == Lower(row.depositor) && Lower(entry.beneficiary) == Lower(row.beneficiary)
    && Lower(entry.asset) == Lower(row.asset) && entry.amount == row.amount && entry.queuedAtBlock == row.queuedAtBlock
  }

  ghost predicate BlockAgrees(room: Room, inboxId: nat, entry: ChainDeposit, hash: Option<Option<string>>) {
    && hash.Some? && hash.value.Some?
    && (forall k: nat :: FirstNamed(room.deposits, k, inboxId) ==> EntryAgrees(room.deposits[k], entry, hash.value.value))
    && forall row :: row in room.rows && row.depositInboxId == inboxId ==> row.status == Resolved
  }

  ghost predicate DepositUsable(c: Config, room: Room, inboxId: nat, a: Answers, sender: string, head: nat) {
    && NamedLive(c, room, inboxId)
    && a.deposit.Some? && a.deposit.value.Some?
    && EntryUsable(room, a.deposit.value.value, sender, head)
    && BlockAgrees(room, inboxId, a.deposit.value.value, a.hash)
  }

  predicate InWindow(c: Config, room: Room, head: nat, deadline: nat, maximumBatch: nat) {
    head + c.minimumLead <= deadline <= head + room.window && maximumBatch > room.latestBatch
  }

  function LiveQueue(pending: seq<Queued>, head: nat): set<nat> {
    set i: nat | i < |pending| && pending[i].receipt.deadline > head
  }

  /** The one id just above everything the archive accounts for. */
  ghost predicate NextId(room: Room, id: nat) {
    && id > room.cursor && (forall row :: row in room.rows ==> row.admissionId < id)
    && (id == room.cursor + 1 || exists row :: row in room.rows && row.admissionId + 1 == id)
  }

  ghost predicate IdUsable(room: Room, issued: nat, cursor: Option<nat>, id: nat) {
    NextId(room, id) && id > issued && cursor.Some? && id <= cursor.value + 256
  }

  predicate Delivered(c: Config, a: Answers) {
    a.signature.Some? && !a.putFails && !(c.durableIds && a.diskFails)
  }

  /** Everything a receipt takes. */
  ghost predicate Admissible(c: Config, s: Service, request: Request, a: Answers) {
    && Admitting(c, s.archive)
    && var room := s.archive.value;
    && HeadCurrent(c, room, a.head) && RawUsable(request.raw)
    && a.sender.Some? && !a.limited
    && RoomFor(room, Lower(request.raw)) && NumbersUsable(c, request)
    && var inboxId := NumberIn(request.depositInboxId);
    && (inboxId != 0 ==> DepositUsable(c, room, inboxId, a, a.sender.value, a.head.value))
    && InWindow(c, room, a.head.value, NumberIn(request.deadline), NumberIn(request.maximumBatch))
    && |LiveQueue(s.pending, a.head.value)| < c.maximumPending
    && (exists id :: IdUsable(room, s.issued, a.cursor, id))
    && Delivered(c, a)
  }

  // ----- Each stretch passes exactly under its condition

  lemma {:induction false} PendingIsCounted(rows: seq<Row>)
    ensures PendingCount(rows) == |PendingRows(rows)|
  {
    if rows == [] {
      assert PendingRows(rows) == {};
    } else {
      var front, last := rows[..|rows| - 1], rows[|rows| - 1];
      PendingIsCounted(front);
      if last.status.Pending? {
        assert PendingRows(rows) == PendingRows(front) + {|front|};
      } else {
        assert PendingRows(rows) == PendingRows(front);
      }
    }
  }

  lemma UnexpiredOneMore(front: seq<Queued>, last: Queued, head: nat)
    ensures |Unexpired(front + [last], head)| == |Unexpired(front, head)| + if last.receipt.deadline > head then 1 else 0
  {
    assert (front + [last])[..|front|] == front;
  }

  lemma LiveOneMore(front: seq<Queued>, last: Queued, head: nat)
    ensures |LiveQueue(front + [last], head)| == |LiveQueue(front, head)| + if last.receipt.deadline > head then 1 else 0
  {
    var all := front + [last];
    if last.receipt.deadline > head {
      assert LiveQueue(all, head) == LiveQueue(front, head) + {|front|};
    } else {
      assert LiveQueue(all, head) == LiveQueue(front, head);
    }
  }

  lemma {:induction false} QueueIsCounted(pending: seq<Queued>, head: nat)
    ensures |Unexpired(pending, head)| == |LiveQueue(pending, head)|
  {
    if pending == [] {
      assert LiveQueue(pending, head) == {};
    } else {
      var front, last := pending[..|pending| - 1], pending[|pending| - 1];
      assert pending == front + [last];
      QueueIsCounted(front, head);
      UnexpiredOneMore(front, last, head);
      LiveOneMore(front, last, head);
    }
  }

  lemma {:induction false} MaximumIsReached(rows: seq<Row>)
    ensures MaximumId(rows) > 0 ==> exists row :: row in rows && row.admissionId == MaximumId(rows)
  {
    if rows != [] {
      MaximumIsReached(rows[..|rows| - 1]);
      assert rows[|rows| - 1] in rows;
    }
  }

  lemma NextIdIsBase(room: Room, id: nat)
    ensures NextId(room, id) <==> id == Base(room) + 1
  {
    MaximumIsReached(room.rows);
  }

  lemma {:induction false} RowIsFirst(deposits: seq<Deposit>, inboxId: nat, k: nat)
    requires FirstNamed(deposits, k, inboxId)
    ensures DepositRow(deposits, inboxId) == Some(deposits[k])
  {
    if k > 0 {
      RowIsFirst(deposits[1..], inboxId, k - 1);
    }
  }

  lemma {:induction false} FirstExists(deposits: seq<Deposit>, inboxId: nat) returns (k: nat)
    requires DepositRow(deposits, inboxId).Some?
    ensures FirstNamed(deposits, k, inboxId)
  {
    if deposits[0].inboxId == inboxId {
      k := 0;
    } else {
      k := FirstExists(deposits[1..], inboxId);
      k := k + 1;
    }
  }

  lemma HeadIff(c: Config, room: Room, request: Request, head: Option<nat>)
    ensures var r := HearHead(c, room, request, head);
            && (r.Ok? <==> HeadCurrent(c, room, head) && RawUsable(request.raw))
            && (r.Ok? ==> r.value == AwaitSender(head.value, Lower(request.raw)))
  {
  }

  lemma VetIff(c: Config, room: Room, request: Request, head: nat, raw: string, sender: Option<string>, limited: bool)
    ensures var r := Vet(c, room, request, head, raw, sender, limited);
            && (r.Ok? <==> sender.Some? && !limited && RoomFor(room, raw) && NumbersUsable(c, request))
            && (r.Ok? ==>
                  r.value == Vetted(head, raw, sender.value, NumberIn(request.depositInboxId),
                                    NumberIn(request.deadline), NumberIn(request.maximumBatch),
                                    if request.fee.Some? then NumberIn(request.fee.value) else 0))
  {
    PendingIsCounted(room.rows);
    assert IsDecimal("0") && DecimalValue("0") == 0;
  }

  lemma NamedIff(c: Config, room: Room, v: Vetted)
    ensures NameDeposit(c, room, v).Ok? <==> NamedLive(c, room, v.depositInboxId)
    ensures NameDeposit(c, room, v).Ok? ==> NameDeposit(c, room, v).value == AwaitDeposit(v)
  {
    var row := DepositRow(room.deposits, v.depositInboxId);
    if row.Some? {
      var k := FirstExists(room.deposits, v.depositInboxId);
      RowIsFirst(room.deposits, v.depositInboxId, k);
    }
    forall k: nat | FirstNamed(room.deposits, k, v.depositInboxId) ensures row == Some(room.deposits[k]) {
      RowIsFirst(room.deposits, v.depositInboxId, k);
    }
  }

  lemma EntryIff(room: Room, v: Vetted, answer: Option<Option<ChainDeposit>>)
    ensures AfterDeposit(room, v, answer).Ok?
            <==> answer.Some? && answer.value.Some? && EntryUsable(room, answer.value.value, v.sender, v.head)
    ensures AfterDeposit(room, v, answer).Ok? ==> AfterDeposit(room, v, answer).value == AwaitBlock(v, answer.value.value)
  {
  }

  lemma BlockIff(room: Room, v: Vetted, entry: ChainDeposit, answer: Option<Option<string>>)
    requires DepositRow(room.deposits, v.depositInboxId).Some?
    ensures ReadBlock(room, v, entry, answer).Ok? <==> BlockAgrees(room, v.depositInboxId, entry, answer)
    ensures ReadBlock(room, v, entry, answer).Ok? ==>
              ReadBlock(room, v, entry, answer).value
              == DepositContent(entry.depositor, entry.beneficiary, entry.asset, entry.amount)
  {
    var k := FirstExists(room.deposits, v.depositInboxId);
    RowIsFirst(room.deposits, v.depositInboxId, k);
    assert forall j: nat :: FirstNamed(room.deposits, j, v.depositInboxId) ==> j == k;
    assert (exists i :: 0 <= i < |room.rows| && room.rows[i].depositInboxId == v.depositInboxId && room.rows[i].status.Pending?)
           <==> exists row :: row in room.rows && row.depositInboxId == v.depositInboxId && row.status.Pending?;
  }

  lemma ClaimIff(
      c: Config, room: Room, pending: seq<Queued>, issued: nat, v: Vetted, content: Content, entry: Option<ChainDeposit>)
    ensures var r := ClaimId(c, room, pending, issued, v, content, entry);
            && (r.Ok? <==>
                  && InWindow(c, room, v.head, v.deadline, v.maximumBatch)
                  && |LiveQueue(pending, v.head)| < c.maximumPending
                  && Base(room) + 1 > issued)
            && (r.Ok? ==>
                  r.value == AwaitCursor(v, Claim(Base(room), Base(room) + 1, Unexpired(pending, v.head), content, entry)))
  {
    QueueIsCounted(pending, v.head);
  }

  // ----- The whole submission

  /** A receipt was returned, for these bytes and with the next id, and the archive gained its row and no more. */
  ghost predicate Issues(
      returned: seq<Issue>, pending: seq<Queued>, room: Room, v: Vetted, content: Content, signature: string, after: Service)
  {
    && |after.returned| == |returned| + 1 && after.returned[..|returned|] == returned
    && var q := after.returned[|returned|].entry;
    && NextId(room, q.receipt.admissionId) && q.receipt.content == content && q.receipt.signature == signature
    && q.raw == v.raw && q.sender == v.sender
    && (forall p :: p in after.pending <==> p == q || (p in pending && p.receipt.deadline > v.head))
    && after.archive.Some?
    && var rows := after.archive.value.rows;
    && |rows| == |room.rows| + 1 && rows[..|room.rows|] == room.rows
    && after.archive.value == room.(rows := rows, revision := after.archive.value.revision)
  }

  predicate At(s: Service, request: Request, room: Room, phase: Phase) {
    s.active == Some(Attempt(request, room, phase)) && s.archive == Some(room)
  }

  lemma StepOn(c: Config, s: Service, a: Answers, n: nat)
    requires s.active.Some? && n > 0
    ensures Driven(c, s, a, n) == Driven(c, Resume(c, s, AnswerFor(a, s.active.value.phase)).value, a, n - 1)
  {
  }

  lemma CursorStep(c: Config, s: Service, request: Request, room: Room, v: Vetted, claim: Claim, a: Answers, n: nat)
    requires At(s, request, room, AwaitCursor(v, claim)) && n > 0
    ensures Driven(c, s, a, n)
            == if a.cursor.Some? && claim.id <= a.cursor.value + 256
               then Driven(c, s.(active := Some(Attempt(request, room, AwaitSignature(v, claim, a.cursor.value)))), a, n - 1)
               else s.(active := None)
  {
    StepOn(c, s, a, n);
  }

  lemma AtSignature(c: Config, s: Service, request: Request, room: Room, v: Vetted, claim: Claim, cursor: nat, a: Answers, n: nat)
    requires At(s, request, room, AwaitSignature(v, claim, cursor)) && n >= 1
    requires claim.id == Base(room) + 1 && claim.id > s.issued && claim.queue == Unexpired(s.pending, v.head)
    ensures var after := Driven(c, s, a, n);
            if Delivered(c, a) then Issues(s.returned, s.pending, room, v, claim.content, a.signature.value, after)
            else after.returned == s.returned
  {
    var after := Resume(c, s, AnswerFor(a, s.active.value.phase)).value;
    assert after.active.None? && Driven(c, s, a, n) == after;
    NextIdIsBase(room, claim.id);
  }

  lemma AtCursor(c: Config, s: Service, request: Request, room: Room, v: Vetted, claim: Claim, a: Answers, n: nat)
    requires At(s, request, room, AwaitCursor(v, claim)) && n >= 2
    requires claim.id == Base(room) + 1 && claim.id > s.issued && claim.queue == Unexpired(s.pending, v.head)
    ensures var after := Driven(c, s, a, n);
            if a.cursor.Some? && claim.id <= a.cursor.value + 256 && Delivered(c, a)
            then Issues(s.returned, s.pending, room, v, claim.content, a.signature.value, after) else after.returned == s.returned
  {
    CursorStep(c, s, request, room, v, claim, a, n);
    if a.cursor.Some? && claim.id <= a.cursor.value + 256 {
      var next := s.(active := Some(Attempt(request, room, AwaitSignature(v, claim, a.cursor.value))));
      AtSignature(c, next, request, room, v, claim, a.cursor.value, a, n - 1);
    }
  }

  /** The stretch every path ends with, from the claim of an id on. */
  ghost predicate Finishes(c: Config, s: Service, room: Room, v: Vetted, a: Answers) {
    && InWindow(c, room, v.head, v.deadline, v.maximumBatch)
    && |LiveQueue(s.pending, v.head)| < c.maximumPending
    && (exists id :: IdUsable(room, s.issued, a.cursor, id))
    && Delivered(c, a)
  }

  lemma FromClaim(
      c: Config, s: Service, request: Request, room: Room, v: Vetted, content: Content, entry: Option<ChainDeposit>,
      a: Answers, n: nat)
    requires s.active.Some? && s.active.value.request == request && s.active.value.room == room
    requires s.archive == Some(room) && n >= 2
    ensures var after := Driven(c, Enter(s, ClaimId(c, room, s.pending, s.issued, v, content, entry)), a, n);
            if Finishes(c, s, room, v, a) then Issues(s.returned, s.pending, room, v, content, a.signature.value, after)
            else after.returned == s.returned
  {
    var claimed := ClaimId(c, room, s.pending, s.issued, v, content, entry);
    ClaimIff(c, room, s.pending, s.issued, v, content, entry);
    NextIdIsBase(room, Base(room) + 1);
    assert IdUsable(room, s.issued, a.cursor, Base(room) + 1)
           <==> Base(room) + 1 > s.issued && a.cursor.Some? && Base(room) + 1 <= a.cursor.value + 256;
    if id :| IdUsable(room, s.issued, a.cursor, id) {
      NextIdIsBase(room, id);
    }
    if claimed.Ok? {
      AtCursor(c, Enter(s, claimed), request, room, v, claimed.value.claim, a, n);
    }
  }

  lemma AtBlock(c: Config, s: Service, request: Request, room: Room, v: Vetted, entry: ChainDeposit, a: Answers, n: nat)
    requires At(s, request, room, AwaitBlock(v, entry)) && n >= 3 && DepositRow(room.deposits, v.depositInboxId).Some?
    ensures var after := Driven(c, s, a, n);
            var content := DepositContent(entry.depositor, entry.beneficiary, entry.asset, entry.amount);
            if BlockAgrees(room, v.depositInboxId, entry, a.hash) && Finishes(c, s, room, v, a)
            then Issues(s.returned, s.pending, room, v, content, a.signature.value, after) else after.returned == s.returned
  {
    BlockIff(room, v, entry, a.hash);
    var content := ReadBlock(room, v, entry, a.hash);
    if content.Ok? {
      FromClaim(c, s, request, room, v, content.value, Some(entry), a, n - 1);
    }
  }

  lemma AtDeposit(c: Config, s: Service, request: Request, room: Room, v: Vetted, a: Answers, n: nat)
    requires At(s, request, room, AwaitDeposit(v)) && n >= 4 && DepositRow(room.deposits, v.depositInboxId).Some?
    ensures var after := Driven(c, s, a, n);
            if && a.deposit.Some? && a.deposit.value.Some?
               && EntryUsable(room, a.deposit.value.value, v.sender, v.head)
               && BlockAgrees(room, v.depositInboxId, a.deposit.value.value, a.hash) && Finishes(c, s, room, v, a)
            then
              var entry := a.deposit.value.value;
              Issues(s.returned, s.pending, room, v, DepositContent(entry.depositor, entry.beneficiary, entry.asset, entry.amount),
                     a.signature.value, after)
            else after.returned == s.returned
  {
    EntryIff(room, v, a.deposit);
    var next := Resume(c, s, AnswerFor(a, s.active.value.phase)).value;
    StepOn(c, s, a, n);
    if next.active.Some? {
      AtBlock(c, next, request, room, v, a.deposit.value.value, a, n - 1);
    }
  }

  function ContentFor(inboxId: nat, a: Answers): Content {
    if inboxId == 0 || a.deposit.None? || a.deposit.value.None? then ZeroContent
    else
      var entry := a.deposit.value.value;
      DepositContent(entry.depositor, entry.beneficiary, entry.asset, entry.amount)
  }

  lemma FromVetted(c: Config, s: Service, request: Request, room: Room, v: Vetted, a: Answers, n: nat)
    requires s.active.Some? && s.active.value.request == request && s.active.value.room == room
    requires s.archive == Some(room) && n >= 4
    ensures var after := Driven(c, Enter(s, AfterVetting(c, s, room, Ok(v))), a, n);
            if && (v.depositInboxId != 0 ==> DepositUsable(c, room, v.depositInboxId, a, v.sender, v.head))
               && Finishes(c, s, room, v, a)
            then Issues(s.returned, s.pending, room, v, ContentFor(v.depositInboxId, a), a.signature.value, after)
            else after.returned == s.returned
  {
    if v.depositInboxId == 0 {
      FromClaim(c, s, request, room, v, ZeroContent, None, a, n);
    } else {
      NamedIff(c, room, v);
      if NameDeposit(c, room, v).Ok? {
        AtDeposit(c, Enter(s, NameDeposit(c, room, v)), request, room, v, a, n);
      }
    }
  }

  function VettedOf(request: Request, a: Answers): Vetted
    requires a.head.Some? && a.sender.Some?
  {
    Vetted(a.head.value, Lower(request.raw), a.sender.value, NumberIn(request.depositInboxId),
           NumberIn(request.deadline), NumberIn(request.maximumBatch),
           if request.fee.Some? then NumberIn(request.fee.value) else 0)
  }

  lemma SenderStep(c: Config, s: Service, request: Request, room: Room, head: nat, raw: string, a: Answers, n: nat)
    requires At(s, request, room, AwaitSender(head, raw)) && n > 0
    ensures var vetted := Vet(c, room, request, head, raw, a.sender, a.limited);
            && (vetted.Ok? ==> Driven(c, s, a, n) == Driven(c, Enter(s, AfterVetting(c, s, room, Ok(vetted.value))), a, n - 1))
            && (vetted.Err? ==> Driven(c, s, a, n) == s.(active := None))
  {
    StepOn(c, s, a, n);
  }

  lemma AtSender(c: Config, s: Service, request: Request, room: Room, a: Answers, n: nat)
    requires a.head.Some? && At(s, request, room, AwaitSender(a.head.value, Lower(request.raw))) && n >= 5
    ensures var after := Driven(c, s, a, n);
            if && a.sender.Some? && !a.limited && RoomFor(room, Lower(request.raw)) && NumbersUsable(c, request)
               && var v := VettedOf(request, a);
               && (v.depositInboxId != 0 ==> DepositUsable(c, room, v.depositInboxId, a, v.sender, v.head))
               && Finishes(c, s, room, v, a)
            then Issues(s.returned, s.pending, room, VettedOf(request, a), ContentFor(VettedOf(request, a).depositInboxId, a),
                        a.signature.value, after)
            else after.returned == s.returned
  {
    var vetted := Vet(c, room, request, a.head.value, Lower(request.raw), a.sender, a.limited);
    VetIff(c, room, request, a.head.value, Lower(request.raw), a.sender, a.limited);
    SenderStep(c, s, request, room, a.head.value, Lower(request.raw), a, n);
    if vetted.Ok? {
      FromVetted(c, s, request, room, vetted.value, a, n - 1);
    }
  }

  /**
   * A submission that nothing interrupts returns a receipt exactly when it is
   * admissible; it is then the receipt for its own bytes with the next id, the
   * archive gains its row, and the queue keeps what has not expired.
   */
  lemma ReturnsIff(c: Config, s: Service, request: Request, a: Answers)
    requires s.active.None?
    ensures var after := Submitted(c, s, request, a);
            if Admissible(c, s, request, a)
            then Issues(s.returned, s.pending, s.archive.value, VettedOf(request, a), ContentFor(NumberIn(request.depositInboxId), a),
                        a.signature.value, after)
            else after.returned == s.returned
  {
    var begun := Next(c, s, Begin(request)).value;
    if begun.active.Some? {
      var room := s.archive.value;
      HeadIff(c, room, request, a.head);
      var heard := Resume(c, begun, Head(a.head)).value;
      StepOn(c, begun, a, 6);
      if heard.active.Some? {
        AtSender(c, heard, request, room, a, 5);
      }
    }
  }

  // ----- What the archive has seen

  /** Only a replaced archive can have seen less of the chain than before. */
  lemma ObservedNeverFalls(c: Config, s: Service, step: Step)
    requires s.archive.Some? && !step.Replace? && Next(c, s, step).Some?
    ensures var after := Next(c, s, step).value;
            after.archive.Some? && after.archive.value.latestObserved >= s.archive.value.latestObserved
  {
  }
}
