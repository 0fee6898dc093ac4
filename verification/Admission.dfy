/**
 * The standalone admission service for one room: the submission holding the
 * room's lock, cut at its awaits, against an archive, an L1 and an operator
 * that may do anything in between.
 */
module Admission {
  import opened Wrappers
  import opened HexText

  /** A transaction's hash, represented by the bytes it is taken over. */
  datatype Hash = Keccak(raw: string)

  /** The hash of a deposit's four fields, or the zero hash of a receipt without one. */
  datatype Content = ZeroContent | DepositContent(depositor: string, beneficiary: string, asset: string, amount: nat)

  datatype Status = Pending | Resolved

  datatype Row = Row(
    admissionId: nat, transactionHash: Hash, depositInboxId: nat, content: Content,
    deadline: nat, maximumBatch: nat, status: Status)

  datatype Deposit = Deposit(
    inboxId: nat, live: bool, depositor: string, beneficiary: string, asset: string, amount: nat,
    queuedAtBlock: nat, queuedAtBlockHash: string)

  /** An archived room; a missing revision is a document no guarded write has touched. */
  datatype Room = Room(
    open: bool, validityOnly: bool, signer: Option<string>,
    bond: nat, minimumBond: nat, penalty: nat, bondEpoch: nat,
    window: nat, minimumConfirmations: nat,
    latestObserved: nat, latestBatch: nat, cursor: nat,
    deposits: seq<Deposit>, rows: seq<Row>, revision: Option<nat>)

  datatype ChainDeposit = ChainDeposit(
    depositor: string, beneficiary: string, asset: string, amount: nat, queuedAtBlock: nat, consumed: bool, refunded: bool)

  datatype Request = Request(
    raw: string, depositInboxId: string, deadline: string, maximumBatch: string, fee: Option<string>)

  datatype Receipt = Receipt(
    admissionId: nat, transactionHash: Hash, depositInboxId: nat, content: Content,
    deadline: nat, maximumBatch: nat, bondEpoch: nat, fee: nat, signature: string)

  datatype Queued = Queued(receipt: Receipt, raw: string, sender: string)

  datatype Config = Config(
    signer: string, devChain: bool, durableIds: bool,
    minimumFee: nat, minimumLead: nat, maximumLag: nat, maximumPending: nat)

  const MAX_RAW_BYTES := 131072
  const PENDING_BOUND := 256
  const CONFIRMATION_FLOOR := 12

  datatype Failure = Rejected | Unavailable | Threw

  /** What one submission has established before it touches shared state. */
  datatype Vetted = Vetted(
    head: nat, raw: string, sender: string, depositInboxId: nat, deadline: nat, maximumBatch: nat, fee: nat)

  /** An id and the queue snapshot it was derived beside; `base` is what the archive alone accounts for. */
  datatype Claim = Claim(base: nat, id: nat, queue: seq<Queued>, content: Content, entry: Option<ChainDeposit>)

  datatype Phase =
    | AwaitHead
    | AwaitSender(head: nat, raw: string)
    | AwaitDeposit(v: Vetted)
    | AwaitBlock(v: Vetted, entry: ChainDeposit)
    | AwaitCursor(v: Vetted, claim: Claim)
    | AwaitSignature(v: Vetted, claim: Claim, cursor: nat)

  // ----- The checks between the awaits

  function OpenRoom(c: Config, archive: Option<Room>): Result<Room, Failure> {
    if archive.None? || !archive.value.open then Err(Rejected)
    else if !archive.value.validityOnly then Err(Rejected)
    else if archive.value.signer.None? || Lower(archive.value.signer.value) != Lower(c.signer) then Err(Rejected)
    else Ok(archive.value)
  }

  function RawTransaction(raw: string): Result<string, Failure> {
    var clean := CleanHex(raw);
    if clean.Err? || |raw| < 4 || (|raw| - 2) / 2 > MAX_RAW_BYTES then Err(Rejected) else Ok(clean.value)
  }

  function Uint(s: string): Result<nat, Failure> {
    if IsDecimal(s) then Ok(DecimalValue(s)) else Err(Rejected)
  }

  function HearHead(c: Config, room: Room, request: Request, head: Option<nat>): Result<Phase, Failure> {
    if head.None? then Err(Unavailable)
    else if room.latestObserved > head.value || head.value - room.latestObserved > c.maximumLag then Err(Unavailable)
    else
      var raw :- RawTransaction(request.raw);
      Ok(AwaitSender(head.value, raw))
  }

  function PendingCount(rows: seq<Row>): nat {
    if rows == [] then 0
    else PendingCount(rows[..|rows| - 1]) + (if rows[|rows| - 1].status.Pending? then 1 else 0)
  }

  predicate HashKnown(rows: seq<Row>, hash: Hash) {
    exists i :: 0 <= i < |rows| && rows[i].transactionHash == hash
  }

  predicate DepositReserved(rows: seq<Row>, inboxId: nat) {
    exists i :: 0 <= i < |rows| && rows[i].depositInboxId == inboxId && rows[i].status.Pending?
  }

  function DepositRow(deposits: seq<Deposit>, inboxId: nat): (r: Option<Deposit>)
    ensures r.Some? ==> r.value in deposits && r.value.inboxId == inboxId
  {
    if deposits == [] then None
    else if deposits[0].inboxId == inboxId then Some(deposits[0])
    else DepositRow(deposits[1..], inboxId)
  }

  predicate Coverable(room: Room) {
    && room.bond >= room.minimumBond && room.penalty != 0
    && room.bond >= (PendingCount(room.rows) + 1) * room.penalty
  }

  /** The sender is known: bond coverage, duplicates and the request's numbers. */
  function Vet(c: Config, room: Room, request: Request, head: nat, raw: string, sender: Option<string>, limited: bool)
    : Result<Vetted, Failure>
  {
    if sender.None? then Err(Threw)
    else if limited then Err(Unavailable)
    else if !Coverable(room) then Err(Rejected)
    else if HashKnown(room.rows, Keccak(raw)) then Err(Rejected)
    else
      var inboxId :- Uint(request.depositInboxId);
      var deadline :- Uint(request.deadline);
      var maximumBatch :- Uint(request.maximumBatch);
      var fee :- Uint(if request.fee.None? then "0" else request.fee.value);
      if fee < c.minimumFee then Err(Rejected)
      else Ok(Vetted(head, raw, sender.value, inboxId, deadline, maximumBatch, fee))
  }

  /** Before a deposit is read from the chain, the archive must name it as live. */
  function NameDeposit(c: Config, room: Room, v: Vetted): Result<Phase, Failure> {
    var row := DepositRow(room.deposits, v.depositInboxId);
    if row.None? || !row.value.live then Err(Rejected)
    else if !c.devChain && room.minimumConfirmations < CONFIRMATION_FLOOR then Err(Unavailable)
    else Ok(AwaitDeposit(v))
  }

  function ReadDeposit(room: Room, v: Vetted, answer: Option<Option<ChainDeposit>>): Result<ChainDeposit, Failure> {
    if answer.None? || answer.value.None? then Err(Unavailable)
    else
      var entry := answer.value.value;
      if entry.consumed || entry.refunded then Err(Unavailable)
      else if Lower(entry.beneficiary) != Lower(v.sender) then Err(Rejected)
      else if entry.queuedAtBlock > v.head || v.head - entry.queuedAtBlock < room.minimumConfirmations then Err(Rejected)
      else Ok(entry)
  }

  predicate DepositMatches(deposit: Deposit, entry: ChainDeposit) {
    && Lower(entry.depositor) == Lower(deposit.depositor)
    && Lower(entry.beneficiary) == Lower(deposit.beneficiary)
    && Lower(entry.asset) == Lower(deposit.asset)
    && entry.amount == deposit.amount
    && entry.queuedAtBlock == deposit.queuedAtBlock
  }

  /** The signed content comes from the chain's entry, never from the archive's row. */
  function ReadBlock(room: Room, v: Vetted, entry: ChainDeposit, answer: Option<Option<string>>): Result<Content, Failure> {
    if answer.None? || answer.value.None? || answer.value.value == "" then Err(Unavailable)
    else
      var row := DepositRow(room.deposits, v.depositInboxId);
      if row.Some? && Lower(answer.value.value) != Lower(row.value.queuedAtBlockHash) then Err(Unavailable)
      else if row.Some? && !DepositMatches(row.value, entry) then Err(Unavailable)
      else if DepositReserved(room.rows, v.depositInboxId) then Err(Rejected)
      else Ok(DepositContent(entry.depositor, entry.beneficiary, entry.asset, entry.amount))
  }

  function MaximumId(rows: seq<Row>): (m: nat)
    ensures forall i :: 0 <= i < |rows| ==> rows[i].admissionId <= m
  {
    if rows == [] then 0
    else
      var front, last := MaximumId(rows[..|rows| - 1]), rows[|rows| - 1].admissionId;
      assert forall i :: 0 <= i < |rows| - 1 ==> rows[i] == rows[..|rows| - 1][i];
      if last > front then last else front
  }

  /** The highest id the archive accounts for, by its rows or by the cursor of its batches. */
  function Base(room: Room): nat {
    var maximum := MaximumId(room.rows);
    if maximum > room.cursor then maximum else room.cursor
  }

  function Unexpired(queue: seq<Queued>, head: nat): (r: seq<Queued>)
    ensures forall q :: q in r <==> q in queue && q.receipt.deadline > head
    ensures |r| <= |queue|
  {
    if queue == [] then []
    else
      var front, last := Unexpired(queue[..|queue| - 1], head), queue[|queue| - 1];
      assert queue == queue[..|queue| - 1] + [last];
      if last.receipt.deadline > head then front + [last] else front
  }

  /** The window checks, the queue snapshot and the next id, all in one synchronous stretch. */
  function ClaimId(
      c: Config, room: Room, pending: seq<Queued>, issued: nat, v: Vetted, content: Content, entry: Option<ChainDeposit>)
    : Result<Phase, Failure>
  {
    if v.deadline < v.head + c.minimumLead then Err(Rejected)
    else if v.deadline > v.head + room.window || v.maximumBatch <= room.latestBatch then Err(Rejected)
    else
      var queue := Unexpired(pending, v.head);
      if |queue| >= c.maximumPending then Err(Unavailable)
      else
        var id := Base(room) + 1;
        if id <= issued then Err(Unavailable)
        else Ok(AwaitCursor(v, Claim(Base(room), id, queue, content, entry)))
  }

  function ReadCursor(v: Vetted, claim: Claim, cursor: Option<nat>): Result<Phase, Failure> {
    if cursor.None? || claim.id > cursor.value + PENDING_BOUND then Err(Unavailable)
    else Ok(AwaitSignature(v, claim, cursor.value))
  }

  function Sign(room: Room, v: Vetted, claim: Claim, signature: string): Receipt {
    Receipt(claim.id, Keccak(v.raw), v.depositInboxId, claim.content, v.deadline, v.maximumBatch,
            room.bondEpoch, v.fee, signature)
  }

  function RowOf(r: Receipt): Row {
    Row(r.admissionId, r.transactionHash, r.depositInboxId, r.content, r.deadline, r.maximumBatch, Pending)
  }

  /** The guarded archive write: refused unless the stored revision is the one that was read. */
  function PutRoom(archive: Option<Room>, room: Room): Result<Room, Failure> {
    var stored := if archive.None? then None else archive.value.revision;
    if stored != room.revision then Err(Unavailable)
    else
      var bumped := room.(revision := Some((if stored.None? then 0 else stored.value) + 1));
      Ok(if archive.Some? && bumped.latestObserved < archive.value.latestObserved
         then bumped.(latestObserved := archive.value.latestObserved) else bumped)
  }

  // ----- The machine

  datatype Attempt = Attempt(request: Request, room: Room, phase: Phase)

  /** A receipt the service returned, with what it had read when it did. */
  datatype Issue = Issue(
    entry: Queued, base: nat, cursor: nat, head: nat, confirmations: nat, deposit: Option<ChainDeposit>, life: nat)

  /**
   * `issued` is the id record in memory and `disk` what a restart finds.
   * `returned`, `handed`, `heads` and `life` remember the run: receipts
   * returned, rows handed to the operator one after another, heads read, restarts so far.
   */
  datatype Service = Service(
    archive: Option<Room>, issued: nat, disk: nat, pending: seq<Queued>, active: Option<Attempt>,
    returned: seq<Issue>, handed: seq<Queued>, heads: set<nat>, life: nat)

  datatype Answer =
    | Head(head: Option<nat>)
    | Sender(sender: Option<string>, limited: bool)
    | DepositEntry(deposit: Option<Option<ChainDeposit>>)
    | BlockHash(hash: Option<Option<string>>)
    | Cursor(cursor: Option<nat>)
    | Signature(signature: Option<string>, putFails: bool, diskFails: bool)

  datatype Step =
    | Begin(request: Request)
    | Answered(answer: Answer)
    | Replace(archive: Option<Room>)
    | Heartbeat(block: nat)
    | Resolve(index: nat)
    | Drain
    | Restart

  function Enter(s: Service, next: Result<Phase, Failure>): Service
    requires s.active.Some?
  {
    if next.Err? then s.(active := None) else s.(active := Some(s.active.value.(phase := next.value)))
  }

  function AfterVetting(c: Config, s: Service, room: Room, vetted: Result<Vetted, Failure>): Result<Phase, Failure> {
    var v :- vetted;
    if v.depositInboxId != 0 then NameDeposit(c, room, v)
    else ClaimId(c, room, s.pending, s.issued, v, ZeroContent, None)
  }

  function AfterBlock(c: Config, s: Service, room: Room, v: Vetted, entry: ChainDeposit, answer: Option<Option<string>>)
    : Result<Phase, Failure>
  {
    var content :- ReadBlock(room, v, entry, answer);
    ClaimId(c, room, s.pending, s.issued, v, content, Some(entry))
  }

  function AfterDeposit(room: Room, v: Vetted, answer: Option<Option<ChainDeposit>>): Result<Phase, Failure> {
    var entry :- ReadDeposit(room, v, answer);
    Ok(AwaitBlock(v, entry))
  }

  /** The signature is back: archive, id record, queue and return, in that order and without an await. */
  function Publish(
      c: Config, s: Service, room: Room, v: Vetted, claim: Claim, cursor: nat,
      signature: Option<string>, putFails: bool, diskFails: bool): Service
  {
    if signature.None? || putFails then s.(active := None)
    else
      var receipt := Sign(room, v, claim, signature.value);
      var stored := PutRoom(s.archive, room.(rows := room.rows + [RowOf(receipt)]));
      if stored.Err? then s.(active := None)
      else
        var issued := if claim.id > s.issued then claim.id else s.issued;
        if c.durableIds && diskFails && claim.id > s.issued then
          s.(active := None, archive := Some(stored.value), issued := issued)
        else
          var entry := Queued(receipt, v.raw, v.sender);
          s.(active := None, archive := Some(stored.value), issued := issued,
             disk := if c.durableIds && claim.id > s.issued then issued else s.disk,
             pending := claim.queue + [entry],
             returned := s.returned
               + [Issue(entry, claim.base, cursor, v.head, room.minimumConfirmations, claim.entry, s.life)])
  }

  function Resume(c: Config, s: Service, answer: Answer): Option<Service>
    requires s.active.Some?
  {
    var room, request := s.active.value.room, s.active.value.request;
    match s.active.value.phase
    case AwaitHead =>
      if answer.Head? then
        var heard := if answer.head.Some? then s.(heads := s.heads + {answer.head.value}) else s;
        Some(Enter(heard, HearHead(c, room, request, answer.head)))
      else None
    case AwaitSender(head, raw) =>
      if answer.Sender?
      then Some(Enter(s, AfterVetting(c, s, room, Vet(c, room, request, head, raw, answer.sender, answer.limited))))
      else None
    case AwaitDeposit(v) =>
      if answer.DepositEntry? then Some(Enter(s, AfterDeposit(room, v, answer.deposit))) else None
    case AwaitBlock(v, entry) =>
      if answer.BlockHash? then Some(Enter(s, AfterBlock(c, s, room, v, entry, answer.hash))) else None
    case AwaitCursor(v, claim) =>
      if answer.Cursor? then Some(Enter(s, ReadCursor(v, claim, answer.cursor))) else None
    case AwaitSignature(v, claim, cursor) =>
      if answer.Signature?
      then Some(Publish(c, s, room, v, claim, cursor, answer.signature, answer.putFails, answer.diskFails))
      else None
  }

  function Next(c: Config, s: Service, step: Step): Option<Service> {
    match step
    case Begin(request) =>
      if s.active.Some? then None
      else
        var room := OpenRoom(c, s.archive);
        Some(if room.Err? then s else s.(active := Some(Attempt(request, room.value, AwaitHead))))
    case Answered(answer) => if s.active.None? then None else Resume(c, s, answer)
    case Replace(archive) => Some(s.(archive := archive))
    case Heartbeat(block) =>
      if s.archive.Some? && block > s.archive.value.latestObserved
      then Some(s.(archive := Some(s.archive.value.(latestObserved := block)))) else None
    case Resolve(index) =>
      if s.archive.Some? && index < |s.archive.value.rows| && s.archive.value.rows[index].status.Pending? then
        var room := s.archive.value;
        var written := PutRoom(s.archive, room.(rows := room.rows[index := room.rows[index].(status := Resolved)]));
        if written.Ok? then Some(s.(archive := Some(written.value))) else None
      else None
    case Drain => Some(s.(handed := s.handed + s.pending, pending := []))
    case Restart => Some(s.(issued := if c.durableIds then s.disk else 0, pending := [], active := None, life := s.life + 1))
  }

  /** A fresh process, over the archive and the id record it finds. */
  function Start(c: Config, archive: Option<Room>, disk: nat): Service {
    Service(archive, if c.durableIds then disk else 0, disk, [], None, [], [], {}, 0)
  }

  function Run(c: Config, archive: Option<Room>, disk: nat, steps: seq<Step>): Option<Service> {
    if steps == [] then Some(Start(c, archive, disk))
    else
      var before := Run(c, archive, disk, steps[..|steps| - 1]);
      if before.None? then None else Next(c, before.value, steps[|steps| - 1])
  }

  /** The service's own fields for one room; the ghost ones remember the run. */
  class AdmissionService {
    var archive: Option<Room>
    var issued: nat
    var disk: nat
    var pending: seq<Queued>
    var active: Option<Attempt>
    ghost var returned: seq<Issue>
    ghost var handed: seq<Queued>
    ghost var heads: set<nat>
    ghost var life: nat
    const c: Config

    ghost function View(): Service
      reads this
    {
      Service(archive, issued, disk, pending, active, returned, handed, heads, life)
    }

    constructor (c: Config, archive: Option<Room>, disk: nat)
      ensures this.c == c && View() == Start(c, archive, disk)
    {
      this.c, this.archive, this.disk := c, archive, disk;
      issued := if c.durableIds then disk else 0;
      pending, active := [], None;
      returned, handed, heads, life := [], [], {}, 0;
    }

    /** Hand everything queued to the operator, whatever a submission in flight has snapshotted. */
    method TakePending() returns (rows: seq<Queued>)
      modifies this
      ensures rows == old(pending)
      ensures Next(c, old(View()), Drain) == Some(View())
    {
      rows := pending;
      handed := handed + pending;
      pending := [];
    }

    /** The first synchronous stretch of a submission that holds the room's lock. */
    method BeginSubmission(request: Request) returns (failure: Option<Failure>)
      requires active.None?
      modifies this`active
      ensures Next(c, old(View()), Begin(request)) == Some(View())
      ensures failure.Some? <==> OpenRoom(c, archive).Err?
    {
      var room := OpenRoom(c, archive);
      if room.Err? {
        return Some(room.error);
      }
      active := Some(Attempt(request, room.value, AwaitHead));
      return None;
    }

    /** The last stretch: archive, record the id, queue, return, and only in that order. */
    method PublishReceipt(signature: Option<string>, putFails: bool, diskFails: bool) returns (r: Result<Receipt, Failure>)
      requires active.Some? && active.value.phase.AwaitSignature?
      modifies this
      ensures Next(c, old(View()), Answered(Signature(signature, putFails, diskFails))) == Some(View())
      ensures r.Ok? ==> pending != [] && pending[|pending| - 1].receipt == r.value
      ensures r.Ok? <==> returned != old(returned)
    {
      var room, v := active.value.room, active.value.phase.v;
      var claim, cursor := active.value.phase.claim, active.value.phase.cursor;
      active := None;
      if signature.None? || putFails {
        return Err(Threw);
      }
      var receipt := Sign(room, v, claim, signature.value);
      var stored := PutRoom(archive, room.(rows := room.rows + [RowOf(receipt)]));
      if stored.Err? {
        return Err(stored.error);
      }
      archive := Some(stored.value);
      if claim.id > issued {
        issued := claim.id;
        if c.durableIds {
          if diskFails {
            return Err(Threw);
          }
          disk := issued;
        }
      }
      var entry := Queued(receipt, v.raw, v.sender);
      pending := claim.queue + [entry];
      returned := returned + [Issue(entry, claim.base, cursor, v.head, room.minimumConfirmations, claim.entry, life)];
      return Ok(receipt);
    }
  }

  /** Per room, the highest id ever given out, kept by whoever runs the service. */
  class AdmissionIdStore {
    var issued: map<string, nat>
    var stored: map<string, nat>
    const durable: bool

    /** Starts from what an earlier process left on disk. */
    constructor (durable: bool, found: map<string, nat>)
      ensures this.durable == durable && stored == found
      ensures issued == if durable then found else map[]
    {
      this.durable := durable;
      stored := found;
      issued := if durable then found else map[];
    }

    function HighWater(room: string): nat
      reads this
    {
      if room in issued then issued[room] else 0
    }

    /**
     * Ids are recorded only upwards, in memory first. The whole record is then
     * written; where the disk refuses it the caller hears so, and what an
     * earlier write left stays.
     */
    method Record(room: string, id: nat, diskFails: bool) returns (failure: Option<Failure>)
      modifies this
      ensures HighWater(room) == if id > old(HighWater(room)) then id else old(HighWater(room))
      ensures forall r :: r != room ==> HighWater(r) == old(HighWater(r))
      ensures failure == if id > old(HighWater(room)) && durable && diskFails then Some(Threw) else None
      ensures id > old(HighWater(room)) && durable && !diskFails ==> stored == issued
      ensures id <= old(HighWater(room)) || !durable || diskFails ==> stored == old(stored)
    {
      if id <= HighWater(room) {
        return None;
      }
      issued := issued[room := id];
      if durable {
        if diskFails {
          return Some(Threw);
        }
        stored := issued;
      }
      return None;
    }
  }
}
