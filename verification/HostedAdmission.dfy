/**
 * Hosted admission for one room: the write-ahead log that binds an admission
 * id to immutable bytes before anything is signed, with any number of
 * coordinator processes submitting, recovering and crashing.
 */
module HostedAdmission {
  import opened Wrappers
  import opened HexText

  datatype Request = Request(
    depositInboxId: string, content: string, deadline: string, maximumBatch: string, bondEpoch: string, fee: string,
    signer: string)

  datatype Reservation = Reservation(
    admissionId: nat, tenant: string, hash: string, raw: string, sender: string, request: Request)

  /** What the signer signs; hashes are compared as bytes, so without regard to case. */
  datatype Message = Message(
    admissionId: nat, hash: string, depositInboxId: string, content: string, deadline: string,
    maximumBatch: string, bondEpoch: string, fee: string)

  datatype Receipt = Receipt(message: Message, signature: string)

  datatype Status = Reserved | Committed | Leased | Acked | Cancelled

  datatype Row = Row(reservation: Reservation, receipt: Option<Receipt>, status: Status)

  type Wal = map<nat, Row>

  datatype WalError =
    | EarlierReservation | DifferentBytes | DepositBound | HashTaken | NotCommittable | OtherReceipt

  function MessageOf(r: Reservation): Message {
    Message(r.admissionId, Lower(r.hash), r.request.depositInboxId, r.request.content, r.request.deadline,
            r.request.maximumBatch, r.request.bondEpoch, r.request.fee)
  }

  predicate SameBytes(a: Reservation, b: Reservation) {
    && a.tenant == b.tenant
    && Lower(a.hash) == Lower(b.hash) && Lower(a.raw) == Lower(b.raw) && Lower(a.sender) == Lower(b.sender)
    && a.request == b.request
  }

  predicate Unresolved(row: Row) {
    row.status.Reserved? && row.receipt.None?
  }

  predicate SomeUnresolved(wal: Wal) {
    exists k :: k in wal && Unresolved(wal[k])
  }

  /** The unresolved row with the lowest id. */
  predicate IsHead(wal: Wal, id: nat) {
    id in wal && Unresolved(wal[id]) && forall k :: k in wal && Unresolved(wal[k]) ==> id <= k
  }

  predicate DepositConflict(wal: Wal, r: Reservation) {
    && r.request.depositInboxId != "0"
    && exists k :: k in wal && !wal[k].status.Cancelled?
                   && wal[k].reservation.request.depositInboxId == r.request.depositInboxId && k != r.admissionId
  }

  predicate HashUsed(wal: Wal, hash: string) {
    exists k :: k in wal && wal[k].reservation.hash == hash
  }

  /** Bind the id to these bytes, or return the row already bound to them. */
  function Reserve(wal: Wal, r: Reservation): Result<Wal, WalError> {
    if SomeUnresolved(wal) then
      if !IsHead(wal, r.admissionId) then Err(EarlierReservation)
      else if !SameBytes(wal[r.admissionId].reservation, r) then Err(DifferentBytes)
      else Ok(wal)
    else if DepositConflict(wal, r) then Err(DepositBound)
    else if r.admissionId in wal then
      if !SameBytes(wal[r.admissionId].reservation, r) then Err(DifferentBytes) else Ok(wal)
    else if HashUsed(wal, r.hash) then Err(HashTaken)
    else Ok(wal[r.admissionId := Row(r, None, Reserved)])
  }

  function Commit(wal: Wal, id: nat, receipt: Receipt): Result<Wal, WalError> {
    if id in wal && wal[id].status.Reserved? then
      Ok(wal[id := wal[id].(receipt := Some(receipt), status := Committed)])
    else if id !in wal || wal[id].receipt.None? then Err(NotCommittable)
    else if wal[id].receipt != Some(receipt) then Err(OtherReceipt)
    else Ok(wal)
  }

  // ----- Processes

  /** What a process is about to do; `rest` are reservations a recovery has listed but not reached. */
  datatype Process =
    | Idle
    | Listed(rest: seq<Reservation>)
    | Signing(reservation: Reservation, rest: seq<Reservation>)
    | Committing(reservation: Reservation, receipt: Receipt, rest: seq<Reservation>)

  datatype World = World(wal: Wal, processes: seq<Process>, signatures: seq<Receipt>, returned: seq<Receipt>)

  datatype Step =
    | Submit(process: nat, reservation: Reservation)
    | ListReserved(process: nat, ids: seq<nat>)
    | RecoverNext(process: nat, signer: string)
    | Sign(process: nat, signature: string)
    | CommitReceipt(process: nat)
    | Crash(process: nat)
    | SetStatus(id: nat, status: Status)

  function At(w: World, process: nat, next: Process): World
    requires process < |w.processes|
  {
    w.(processes := w.processes[process := next])
  }

  /** A reserved row with a receipt already answers the submission; otherwise it is signed now. */
  function SubmitAt(w: World, process: nat, r: Reservation): World
    requires process < |w.processes|
  {
    var reserved := Reserve(w.wal, r);
    if reserved.Err? || r.admissionId !in reserved.value then At(w, process, Idle)
    else
      var row := reserved.value[r.admissionId];
      var after := w.(wal := reserved.value);
      if row.receipt.Some? then At(after.(returned := w.returned + [row.receipt.value]), process, Idle)
      else At(after, process, Signing(r, []))
  }

  function CommitAt(w: World, process: nat, p: Process): World
    requires process < |w.processes| && p.Committing?
  {
    var committed := Commit(w.wal, p.reservation.admissionId, p.receipt);
    if committed.Err? then At(w, process, Idle)
    else
      At(w.(wal := committed.value, returned := w.returned + [p.receipt]), process,
         if p.rest == [] then Idle else Listed(p.rest))
  }

  predicate ListsReserved(wal: Wal, ids: seq<nat>) {
    forall i :: 0 <= i < |ids| ==> ids[i] in wal && Unresolved(wal[ids[i]])
  }

  function Next(w: World, step: Step): Option<World> {
    match step
    case Submit(process, r) =>
      if process < |w.processes| && w.processes[process].Idle? then Some(SubmitAt(w, process, r)) else None
    case ListReserved(process, ids) =>
      if process < |w.processes| && w.processes[process].Idle? && ListsReserved(w.wal, ids) then
        Some(At(w, process, Listed(seq(|ids|, i requires 0 <= i < |ids| => w.wal[ids[i]].reservation))))
      else None
    case RecoverNext(process, signer) =>
      if process < |w.processes| && w.processes[process].Listed? then
        var rest := w.processes[process].rest;
        Some(At(w, process,
                if rest == [] || Lower(rest[0].request.signer) != Lower(signer) then Idle
                else Signing(rest[0], rest[1..])))
      else None
    case Sign(process, signature) =>
      if process < |w.processes| && w.processes[process].Signing? then
        var p := w.processes[process];
        var receipt := Receipt(MessageOf(p.reservation), signature);
        Some(At(w.(signatures := w.signatures + [receipt]), process, Committing(p.reservation, receipt, p.rest)))
      else None
    case CommitReceipt(process) =>
      if process < |w.processes| && w.processes[process].Committing?
      then Some(CommitAt(w, process, w.processes[process])) else None
    case Crash(process) => if process < |w.processes| then Some(At(w, process, Idle)) else None
    case SetStatus(id, status) =>
      if id in w.wal && !w.wal[id].status.Cancelled? && !status.Reserved? then Some(w.(wal := w.wal[id := w.wal[id].(status := status)])) else None
  }

  function Run(processes: nat, steps: seq<Step>): Option<World> {
    if steps == [] then Some(World(map[], seq(processes, i => Idle), [], []))
    else
      var before := Run(processes, steps[..|steps| - 1]);
      if before.None? then None else Next(before.value, steps[|steps| - 1])
  }

  // ----- One message per id

  /** These bytes are the ones the log binds to their id. */
  predicate Bound(wal: Wal, r: Reservation) {
    r.admissionId in wal && SameBytes(wal[r.admissionId].reservation, r)
  }

  predicate Agrees(wal: Wal, receipt: Receipt) {
    receipt.message.admissionId in wal && receipt.message == MessageOf(wal[receipt.message.admissionId].reservation)
  }

  predicate WalOk(wal: Wal) {
    forall k :: k in wal ==>
      wal[k].reservation.admissionId == k && (wal[k].receipt.Some? ==> Agrees(wal, wal[k].receipt.value)
                                                                        && wal[k].receipt.value.message.admissionId == k)
  }

  predicate ProcessOk(wal: Wal, p: Process) {
    && (!p.Idle? ==> forall i :: 0 <= i < |p.rest| ==> Bound(wal, p.rest[i]))
    && (p.Signing? || p.Committing? ==> Bound(wal, p.reservation))
    && (p.Committing? ==> p.receipt.message == MessageOf(p.reservation))
  }

  predicate Inv(w: World) {
    && WalOk(w.wal)
    && (forall i :: 0 <= i < |w.processes| ==> ProcessOk(w.wal, w.processes[i]))
    && (forall i :: 0 <= i < |w.signatures| ==> Agrees(w.wal, w.signatures[i]))
    && (forall i :: 0 <= i < |w.returned| ==> Agrees(w.wal, w.returned[i]))
  }

  /** Bytes bound to an id stay bound to it. */
  predicate Extends(before: Wal, after: Wal) {
    forall k :: k in before ==> k in after && after[k].reservation == before[k].reservation
  }

  lemma SameBytesSameMessage(a: Reservation, b: Reservation)
    requires SameBytes(a, b) && a.admissionId == b.admissionId
    ensures MessageOf(a) == MessageOf(b)
  {
  }

  lemma ReserveExtends(wal: Wal, r: Reservation)
    requires WalOk(wal) && Reserve(wal, r).Ok?
    ensures Extends(wal, Reserve(wal, r).value) && WalOk(Reserve(wal, r).value) && Bound(Reserve(wal, r).value, r)
  {
  }

  lemma CommitExtends(wal: Wal, r: Reservation, receipt: Receipt)
    requires WalOk(wal) && Bound(wal, r) && receipt.message == MessageOf(r)
    requires Commit(wal, r.admissionId, receipt).Ok?
    ensures Extends(wal, Commit(wal, r.admissionId, receipt).value) && WalOk(Commit(wal, r.admissionId, receipt).value)
    ensures Agrees(Commit(wal, r.admissionId, receipt).value, receipt)
  {
    SameBytesSameMessage(wal[r.admissionId].reservation, r);
  }

  lemma ExtendsKeeps(before: Wal, after: Wal, p: Process, receipts: seq<Receipt>)
    requires Extends(before, after)
    ensures ProcessOk(before, p) ==> ProcessOk(after, p)
    ensures (forall i :: 0 <= i < |receipts| ==> Agrees(before, receipts[i])) ==>
              forall i :: 0 <= i < |receipts| ==> Agrees(after, receipts[i])
  {
  }

  lemma WorldExtends(w: World, after: Wal)
    requires Inv(w) && Extends(w.wal, after) && WalOk(after)
    ensures Inv(w.(wal := after))
  {
    forall i | 0 <= i < |w.processes| ensures ProcessOk(after, w.processes[i]) {
      ExtendsKeeps(w.wal, after, w.processes[i], []);
    }
    ExtendsKeeps(w.wal, after, Idle, w.signatures);
    ExtendsKeeps(w.wal, after, Idle, w.returned);
  }

  lemma SubmitKeepsInv(w: World, process: nat, r: Reservation)
    requires Inv(w) && process < |w.processes|
    ensures Inv(SubmitAt(w, process, r))
  {
    var reserved := Reserve(w.wal, r);
    if reserved.Ok? {
      ReserveExtends(w.wal, r);
      WorldExtends(w, reserved.value);
    }
  }

  lemma CommitKeepsInv(w: World, process: nat)
    requires Inv(w) && process < |w.processes| && w.processes[process].Committing?
    ensures Inv(CommitAt(w, process, w.processes[process]))
  {
    var p := w.processes[process];
    assert ProcessOk(w.wal, p);
    var committed := Commit(w.wal, p.reservation.admissionId, p.receipt);
    if committed.Ok? {
      CommitExtends(w.wal, p.reservation, p.receipt);
      WorldExtends(w, committed.value);
      assert ProcessOk(committed.value, p);
    }
  }

  lemma SignKeepsInv(w: World, process: nat, signature: string)
    requires Inv(w) && process < |w.processes| && w.processes[process].Signing?
    ensures Inv(Next(w, Sign(process, signature)).value)
  {
    var p := w.processes[process];
    assert ProcessOk(w.wal, p);
    SameBytesSameMessage(w.wal[p.reservation.admissionId].reservation, p.reservation);
  }

  lemma NextKeepsInv(w: World, step: Step)
    requires Inv(w) && Next(w, step).Some?
    ensures Inv(Next(w, step).value)
  {
    match step
    case Submit(process, r) => SubmitKeepsInv(w, process, r);
    case CommitReceipt(process) => CommitKeepsInv(w, process);
    case Sign(process, signature) => SignKeepsInv(w, process, signature);
    case SetStatus(id, status) => WorldExtends(w, w.wal[id := w.wal[id].(status := status)]);
    case ListReserved(process, ids) =>
    case RecoverNext(process, signer) =>
      assert ProcessOk(w.wal, w.processes[process]);
    case Crash(process) =>
  }

  lemma {:induction false} RunKeepsInv(processes: nat, steps: seq<Step>)
    requires Run(processes, steps).Some?
    ensures Inv(Run(processes, steps).value)
  {
    if steps != [] {
      RunKeepsInv(processes, steps[..|steps| - 1]);
      NextKeepsInv(Run(processes, steps[..|steps| - 1]).value, steps[|steps| - 1]);
    }
  }

  /**
   * Whichever process made them, by submission, retry or recovery, and
   * wherever others crashed: two signatures for one id are over one message.
   */
  lemma SignaturesAgree(processes: nat, steps: seq<Step>, i: nat, j: nat)
    requires Run(processes, steps).Some?
    requires i < |Run(processes, steps).value.signatures| && j < |Run(processes, steps).value.signatures|
    ensures var made := Run(processes, steps).value.signatures;
            made[i].message.admissionId == made[j].message.admissionId ==> made[i].message == made[j].message
  {
    RunKeepsInv(processes, steps);
  }

  /** Field by field, this is what the reservation asked for: the fields a signature must cover. */
  predicate SaysWhatWasReserved(m: Message, r: Reservation) {
    && m.admissionId == r.admissionId && Lower(m.hash) == Lower(r.hash)
    && m.depositInboxId == r.request.depositInboxId && m.content == r.request.content
    && m.deadline == r.request.deadline && m.maximumBatch == r.request.maximumBatch
    && m.bondEpoch == r.request.bondEpoch && m.fee == r.request.fee
  }

  lemma LowerTwice(s: string)
    ensures Lower(Lower(s)) == Lower(s)
  {
    assert forall i :: 0 <= i < |s| ==> LowerChar(LowerChar(s[i])) == LowerChar(s[i]);
  }

  lemma AgreedSaysWhatWasReserved(wal: Wal, receipt: Receipt)
    requires WalOk(wal) && Agrees(wal, receipt)
    ensures receipt.message.admissionId in wal
    ensures SaysWhatWasReserved(receipt.message, wal[receipt.message.admissionId].reservation)
  {
    LowerTwice(wal[receipt.message.admissionId].reservation.hash);
  }

  /** Every signature ever made says, field by field, what the log holds for its id. */
  lemma SignaturesSayWhatWasReserved(processes: nat, steps: seq<Step>, i: nat)
    requires Run(processes, steps).Some? && i < |Run(processes, steps).value.signatures|
    ensures var w := Run(processes, steps).value;
            var m := w.signatures[i].message;
            m.admissionId in w.wal && SaysWhatWasReserved(m, w.wal[m.admissionId].reservation)
  {
    RunKeepsInv(processes, steps);
    var w := Run(processes, steps).value;
    AgreedSaysWhatWasReserved(w.wal, w.signatures[i]);
  }

  /** So does every receipt handed back. */
  lemma ReturnedReceiptsMatchTheLog(processes: nat, steps: seq<Step>, i: nat)
    requires Run(processes, steps).Some? && i < |Run(processes, steps).value.returned|
    ensures var w := Run(processes, steps).value;
            var m := w.returned[i].message;
            m.admissionId in w.wal && SaysWhatWasReserved(m, w.wal[m.admissionId].reservation)
  {
    RunKeepsInv(processes, steps);
    var w := Run(processes, steps).value;
    AgreedSaysWhatWasReserved(w.wal, w.returned[i]);
  }

  /** And every receipt the log keeps. */
  lemma KeptReceiptsMatchTheLog(processes: nat, steps: seq<Step>, id: nat)
    requires Run(processes, steps).Some? && id in Run(processes, steps).value.wal
    ensures var row := Run(processes, steps).value.wal[id];
            row.reservation.admissionId == id
            && (row.receipt.Some? ==> SaysWhatWasReserved(row.receipt.value.message, row.reservation))
  {
    RunKeepsInv(processes, steps);
    var w := Run(processes, steps).value;
    if w.wal[id].receipt.Some? {
      AgreedSaysWhatWasReserved(w.wal, w.wal[id].receipt.value);
    }
  }

  // ----- One reservation in flight, one promise per deposit and transaction

  predicate OneUnresolved(wal: Wal) {
    forall j, k :: j in wal && k in wal && Unresolved(wal[j]) && Unresolved(wal[k]) ==> j == k
  }

  predicate HoldsDeposit(row: Row) {
    !row.status.Cancelled? && row.reservation.request.depositInboxId != "0"
  }

  predicate DepositsBoundOnce(wal: Wal) {
    forall j, k :: j in wal && k in wal && HoldsDeposit(wal[j]) && HoldsDeposit(wal[k]) && j != k ==>
      wal[j].reservation.request.depositInboxId != wal[k].reservation.request.depositInboxId
  }

  predicate HashesBoundOnce(wal: Wal) {
    forall j, k :: j in wal && k in wal && j != k ==> wal[j].reservation.hash != wal[k].reservation.hash
  }

  predicate Single(wal: Wal) {
    OneUnresolved(wal) && DepositsBoundOnce(wal) && HashesBoundOnce(wal)
  }

  lemma ReserveKeepsSingle(wal: Wal, r: Reservation)
    requires Single(wal) && Reserve(wal, r).Ok?
    ensures Single(Reserve(wal, r).value)
  {
  }

  lemma CommitKeepsSingle(wal: Wal, id: nat, receipt: Receipt)
    requires Single(wal) && Commit(wal, id, receipt).Ok?
    ensures Single(Commit(wal, id, receipt).value)
  {
  }

  lemma NextKeepsSingle(w: World, step: Step)
    requires Single(w.wal) && Next(w, step).Some?
    ensures Single(Next(w, step).value.wal)
  {
    match step
    case Submit(process, r) =>
      if Reserve(w.wal, r).Ok? {
        ReserveKeepsSingle(w.wal, r);
      }
    case CommitReceipt(process) =>
      var p := w.processes[process];
      if Commit(w.wal, p.reservation.admissionId, p.receipt).Ok? {
        CommitKeepsSingle(w.wal, p.reservation.admissionId, p.receipt);
      }
    case SetStatus(id, status) =>
    case _ =>
      assert Next(w, step).value.wal == w.wal;
  }

  /**
   * At any time at most one id is reserved and unsigned, no deposit backs two
   * standing admissions, and no transaction holds two ids.
   */
  lemma {:induction false} ReservationsStaySingle(processes: nat, steps: seq<Step>)
    requires Run(processes, steps).Some?
    ensures Single(Run(processes, steps).value.wal)
  {
    if steps != [] {
      ReservationsStaySingle(processes, steps[..|steps| - 1]);
      NextKeepsSingle(Run(processes, steps[..|steps| - 1]).value, steps[|steps| - 1]);
    }
  }

  /**
   * A standing id is given out again exactly for the bytes it is bound to, and
   * only while no other reservation is in flight.
   */
  lemma ReserveAgainIff(wal: Wal, r: Reservation)
    requires Single(wal) && r.admissionId in wal && !wal[r.admissionId].status.Cancelled?
    ensures var row := wal[r.admissionId];
            var held := row.reservation;
            Reserve(wal, r).Ok? <==>
              && held.tenant == r.tenant && held.request == r.request
              && Lower(held.hash) == Lower(r.hash) && Lower(held.raw) == Lower(r.raw) && Lower(held.sender) == Lower(r.sender)
              && (row.receipt.Some? || row.status != Reserved ==>
                    forall k :: k in wal ==> wal[k].receipt.Some? || wal[k].status != Reserved)
  {
    if SomeUnresolved(wal) {
      assert IsHead(wal, r.admissionId) <==> Unresolved(wal[r.admissionId]);
    } else if SameBytes(wal[r.admissionId].reservation, r) && r.request.depositInboxId != "0" {
      assert HoldsDeposit(wal[r.admissionId]);
      assert !DepositConflict(wal, r);
    }
  }

  // ----- Where a binding comes from

  /** This step is a submission, made by a free process for an id nobody holds, with nothing in its way. */
  predicate Binds(w: World, step: Step, id: nat) {
    && step.Submit? && step.reservation.admissionId == id
    && step.process < |w.processes| && w.processes[step.process].Idle?
    && id !in w.wal
    && (forall k :: k in w.wal ==> w.wal[k].receipt.Some? || w.wal[k].status != Reserved)
    && (forall k :: k in w.wal ==> w.wal[k].reservation.hash != step.reservation.hash)
    && (step.reservation.request.depositInboxId != "0" ==>
          forall k :: k in w.wal && w.wal[k].status != Cancelled ==>
            w.wal[k].reservation.request.depositInboxId != step.reservation.request.depositInboxId)
  }

  /** The bytes of the step that bound the id, or None while every submission for it has been refused. */
  function FirstBinding(processes: nat, steps: seq<Step>, id: nat): Option<Reservation>
    requires Run(processes, steps).Some?
  {
    if steps == [] then None
    else
      var front, last := steps[..|steps| - 1], steps[|steps| - 1];
      var before := FirstBinding(processes, front, id);
      if before.Some? then before
      else if Binds(Run(processes, front).value, last, id) then Some(last.reservation) else None
  }

  lemma NextBinds(w: World, step: Step, id: nat)
    requires Next(w, step).Some?
    ensures id in w.wal ==> id in Next(w, step).value.wal && Next(w, step).value.wal[id].reservation == w.wal[id].reservation
    ensures id !in w.wal ==> (id in Next(w, step).value.wal <==> Binds(w, step, id))
    ensures Binds(w, step, id) ==> id in Next(w, step).value.wal && Next(w, step).value.wal[id].reservation == step.reservation
  {
  }

  /**
   * Over any run, an id is held exactly when some submission for it found
   * nothing in flight and its deposit and transaction free, and it is held for
   * the bytes of the first such submission. Every refused one before it, and
   * everything after it, left no trace.
   */
  lemma {:induction false} HeldForFirstAccepted(processes: nat, steps: seq<Step>, id: nat)
    requires Run(processes, steps).Some?
    ensures var wal := Run(processes, steps).value.wal;
            && (id in wal <==> FirstBinding(processes, steps, id).Some?)
            && (id in wal ==> wal[id].reservation == FirstBinding(processes, steps, id).value)
  {
    if steps != [] {
      HeldForFirstAccepted(processes, steps[..|steps| - 1], id);
      NextBinds(Run(processes, steps[..|steps| - 1]).value, steps[|steps| - 1], id);
    }
  }

  /** Wherever the process that reserved an id stopped, an idle one with the right signer can finish it. */
  lemma RecoveryFinishes(w: World, process: nat, id: nat, signer: string, signature: string)
    requires Inv(w) && process < |w.processes| && w.processes[process].Idle?
    requires id in w.wal && Unresolved(w.wal[id])
    requires Lower(w.wal[id].reservation.request.signer) == Lower(signer)
    ensures var w1 := Next(w, ListReserved(process, [id]));
            && w1.Some?
            && var w2 := Next(w1.value, RecoverNext(process, signer));
            && w2.Some?
            && var w3 := Next(w2.value, Sign(process, signature));
            && w3.Some?
            && var w4 := Next(w3.value, CommitReceipt(process));
            && w4.Some? && w4.value.processes[process].Idle? && id in w4.value.wal
            && var done := w4.value.wal[id];
            && done.reservation == w.wal[id].reservation && done.status == Committed
            && done.receipt.Some? && done.receipt.value.signature == signature
            && SaysWhatWasReserved(done.receipt.value.message, w.wal[id].reservation)
  {
    var r := w.wal[id].reservation;
    var w1 := Next(w, ListReserved(process, [id])).value;
    assert w1.processes[process].rest == [r];
    var w2 := Next(w1, RecoverNext(process, signer)).value;
    assert w2.processes[process] == Signing(r, []);
    LowerTwice(r.hash);
  }
}
