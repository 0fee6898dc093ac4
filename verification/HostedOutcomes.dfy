/** What a submission and a commit come to, and that the receipt a caller gets is the one the log keeps. */
module HostedOutcomes {
  import opened Wrappers
  import opened HexText
  import opened HostedAdmission

  /** A row still reserved has no receipt, and what was returned is what the log holds. */
  predicate StoredInv(w: World) {
    && (forall k :: k in w.wal && w.wal[k].status == Reserved ==> w.wal[k].receipt == None)
    && forall i :: 0 <= i < |w.returned| ==> Stored(w.wal, w.returned[i])
  }

  predicate Stored(wal: Wal, receipt: Receipt) {
    receipt.message.admissionId in wal && wal[receipt.message.admissionId].receipt == Some(receipt)
  }

  /** A receipt once in the log stays there. */
  predicate KeepsReceipts(before: Wal, after: Wal) {
    forall k :: k in before && before[k].receipt.Some? ==> k in after && after[k].receipt == before[k].receipt
  }

  lemma KeptStaysStored(before: Wal, after: Wal, returned: seq<Receipt>)
    requires KeepsReceipts(before, after) && forall i :: 0 <= i < |returned| ==> Stored(before, returned[i])
    ensures forall i :: 0 <= i < |returned| ==> Stored(after, returned[i])
  {
  }

  lemma SubmitKeepsStored(w: World, process: nat, r: Reservation)
    requires Inv(w) && StoredInv(w) && process < |w.processes|
    ensures StoredInv(SubmitAt(w, process, r))
  {
    var reserved := Reserve(w.wal, r);
    if reserved.Ok? {
      ReserveExtends(w.wal, r);
      assert KeepsReceipts(w.wal, reserved.value);
      KeptStaysStored(w.wal, reserved.value, w.returned);
    }
  }

  lemma CommitKeepsStored(w: World, process: nat)
    requires Inv(w) && StoredInv(w) && process < |w.processes| && w.processes[process].Committing?
    ensures StoredInv(CommitAt(w, process, w.processes[process]))
  {
    var p := w.processes[process];
    var committed := Commit(w.wal, p.reservation.admissionId, p.receipt);
    assert ProcessOk(w.wal, p);
    if committed.Ok? {
      assert p.receipt.message.admissionId == p.reservation.admissionId;
      assert KeepsReceipts(w.wal, committed.value);
      KeptStaysStored(w.wal, committed.value, w.returned);
      assert Stored(committed.value, p.receipt);
    }
  }

  lemma NextKeepsStored(w: World, step: Step)
    requires Inv(w) && StoredInv(w) && Next(w, step).Some?
    ensures StoredInv(Next(w, step).value)
  {
    match step
    case Submit(process, r) => SubmitKeepsStored(w, process, r);
    case CommitReceipt(process) => CommitKeepsStored(w, process);
    case SetStatus(id, status) => KeptStaysStored(w.wal, Next(w, step).value.wal, w.returned);
    case _ =>
  }

  lemma {:induction false} RunKeepsStored(processes: nat, steps: seq<Step>)
    requires Run(processes, steps).Some?
    ensures StoredInv(Run(processes, steps).value)
  {
    if steps != [] {
      var front := steps[..|steps| - 1];
      RunKeepsStored(processes, front);
      RunKeepsInv(processes, front);
      NextKeepsStored(Run(processes, front).value, steps[|steps| - 1]);
    }
  }

  /**
   * Over any run, each receipt a caller was given is the very one the log
   * holds for its id, signature included; so no id was ever answered twice
   * with different receipts.
   */
  lemma ReturnedIsTheStoredReceipt(processes: nat, steps: seq<Step>, i: nat, j: nat)
    requires Run(processes, steps).Some?
    requires i < |Run(processes, steps).value.returned| && j < |Run(processes, steps).value.returned|
    ensures var w := Run(processes, steps).value;
            var receipt := w.returned[i];
            && receipt.message.admissionId in w.wal && w.wal[receipt.message.admissionId].receipt == Some(receipt)
            && (w.returned[j].message.admissionId == receipt.message.admissionId ==> w.returned[j] == receipt)
  {
    RunKeepsStored(processes, steps);
  }

  /**
   * A signed receipt is returned exactly when its row is still reserved, and
   * is then stored, or when the log already holds that very receipt.
   */
  lemma CommitsIff(w: World, process: nat)
    requires process < |w.processes| && w.processes[process].Committing?
    ensures var p := w.processes[process];
            var id, after := p.reservation.admissionId, Next(w, CommitReceipt(process)).value;
            var reserved := id in w.wal && w.wal[id].status == Reserved;
            && after.signatures == w.signatures
            && after.wal == (if reserved then w.wal[id := Row(w.wal[id].reservation, Some(p.receipt), Committed)] else w.wal)
            && after.returned ==
               (if reserved || (id in w.wal && w.wal[id].receipt == Some(p.receipt))
                then w.returned + [p.receipt] else w.returned)
  {
  }

  /**
   * A submission whose id is already answered returns the stored receipt; one
   * whose bytes hold the id goes on to sign exactly them; any other leaves no trace.
   */
  lemma SubmissionOutcome(w: World, process: nat, r: Reservation)
    requires process < |w.processes| && w.processes[process].Idle?
    ensures var after := Next(w, Submit(process, r)).value;
            && (after.returned == w.returned || after.wal == w.wal)
            && if Reserve(w.wal, r).Err? then after == w
               else
                 && r.admissionId in after.wal && SameBytes(after.wal[r.admissionId].reservation, r)
                 && (if after.wal[r.admissionId].receipt.Some?
                     then after.processes == w.processes
                          && after.returned == w.returned + [after.wal[r.admissionId].receipt.value]
                     else after.processes == w.processes[process := Signing(r, [])] && after.returned == w.returned)
  {
    assert w.processes[process := Idle] == w.processes;
  }

  /** A recovery signs a listed reservation exactly when it is the reservation's own signer, and then its bytes. */
  lemma RecoverySignsIff(w: World, process: nat, signer: string, signature: string)
    requires process < |w.processes| && w.processes[process].Listed?
    ensures var rest := w.processes[process].rest;
            var resumed := Next(w, RecoverNext(process, signer)).value;
            var signed := Next(resumed, Sign(process, signature));
            && resumed == w.(processes := resumed.processes)
            && (signed.Some? <==> rest != [] && Lower(rest[0].request.signer) == Lower(signer))
            && (signed.Some? ==>
                  && |signed.value.signatures| == |w.signatures| + 1
                  && SaysWhatWasReserved(signed.value.signatures[|w.signatures|].message, rest[0])
                  && signed.value.processes[process]
                     == Committing(rest[0], signed.value.signatures[|w.signatures|], rest[1..]))
  {
    var rest := w.processes[process].rest;
    if rest != [] {
      LowerTwice(rest[0].hash);
    }
  }
}
