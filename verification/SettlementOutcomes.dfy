/** Exactly what one poll makes the settlement watcher do, read off its answers and the events before it. */
module SettlementOutcomes {
  import opened Wrappers
  import opened HexText
  import opened SettlementWatcher

  // ----- The watcher's state, told from its events

  /** The transaction being watched: the last one broadcast. */
  function Watched(o: Options, events: seq<Event>): string {
    if events == [] then o.initialHash
    else if events[|events| - 1].Broadcast? then events[|events| - 1].hash
    else Watched(o, events[..|events| - 1])
  }

  /** The acceptance published and not taken back. */
  function Standing(events: seq<Event>): Option<Placement> {
    if events == [] then None
    else
      var last := events[|events| - 1];
      if last.Accepted? then Some(Placement(last.receipt.blockNumber, Lower(last.receipt.blockHash)))
      else if last.Retracted? then None
      else Standing(events[..|events| - 1])
  }

  /** The distance to the deadline the last warning gave. */
  function LastWarning(events: seq<Event>): Option<int> {
    if events == [] then None
    else if events[|events| - 1].Alert? then Some(events[|events| - 1].remaining)
    else LastWarning(events[..|events| - 1])
  }

  predicate AlertsTold(o: Options, state: WatchState, events: seq<Event>) {
    LastWarning(events) == if state.alertedAt.Some? then Some(o.deadline - state.alertedAt.value) else None
  }

  /** Everything but the count of missing polls is told by the events. */
  predicate Told(o: Options, t: Trace) {
    && t.state.resubmissions == Broadcasts(t.events)
    && (t.outcome == Continue ==>
          && t.state.hash == Watched(o, t.events)
          && t.state.accepted == Standing(t.events)
          && AlertsTold(o, t.state, t.events))
  }

  lemma Told1(o: Options, events: seq<Event>, e: Event)
    ensures Broadcasts(events + [e]) == Broadcasts(events) + (if e.Broadcast? then 1 else 0)
    ensures Watched(o, events + [e]) == if e.Broadcast? then e.hash else Watched(o, events)
    ensures Standing(events + [e])
            == if e.Accepted? then Some(Placement(e.receipt.blockNumber, Lower(e.receipt.blockHash)))
               else if e.Retracted? then None else Standing(events)
    ensures LastWarning(events + [e]) == if e.Alert? then Some(e.remaining) else LastWarning(events)
  {
    assert (events + [e])[..|events|] == events;
  }

  /** The events a step adds when `due`. */
  function When(due: bool, e: Event): seq<Event> {
    if due then [e] else []
  }

  predicate WarningDue(o: Options, events: seq<Event>, latest: nat) {
    o.deadline - latest <= o.alertBlocks && LastWarning(events) != Some(o.deadline - latest)
  }

  lemma AlertIsDue(o: Options, t: Trace, latest: nat)
    requires AlertsTold(o, t.state, t.events)
    ensures WarningDue(o, t.events, latest)
            <==> o.deadline - latest <= o.alertBlocks && t.state.alertedAt != Some(latest)
  {
    if t.state.alertedAt.Some? {
      assert o.deadline - t.state.alertedAt.value == o.deadline - latest <==> t.state.alertedAt.value == latest;
    }
  }

  lemma AlertTold(o: Options, t: Trace, latest: nat)
    requires Told(o, t) && t.outcome == Continue
    ensures var after := AlertStep(o, t, latest, false);
            && Told(o, after) && after.outcome == Continue
            && after.events == t.events + When(WarningDue(o, t.events, latest), Alert(o.deadline - latest))
            && Standing(after.events) == Standing(t.events) && Watched(o, after.events) == Watched(o, t.events)
            && Broadcasts(after.events) == Broadcasts(t.events)
            && after.state == t.state.(alertedAt := after.state.alertedAt)
  {
    AlertIsDue(o, t, latest);
    Told1(o, t.events, Alert(o.deadline - latest));
    if !WarningDue(o, t.events, latest) {
      assert AlertStep(o, t, latest, false) == t && t.events + [] == t.events;
    }
  }

  /** Nobody has the receipt, nothing throws, and every provider gives this latest head. */
  ghost predicate QuietMiss(p: Poll, latest: nat) {
    && !p.pastBudget && !p.retractedThrows && !p.alertThrows && p.broadcast.Some?
    && (forall i :: 0 <= i < |p.receipts| ==> p.receipts[i].None?)
    && exists hash: string :: HeadIs(p.latest, latest, hash)
  }

  lemma HeadIsRead(answers: seq<Option<BlockAnswer>>, number: nat, hash: string)
    requires HeadIs(answers, number, hash)
    ensures ReadAgreedBlock(answers).Ok? && ReadAgreedBlock(answers).value.number == number
    ensures Lower(ReadAgreedBlock(answers).value.hash) == Lower(hash)
  {
    assert |Lower(answers[0].value.hash.value)| == |Lower(hash)|;
  }

  lemma RetractTold(o: Options, t: Trace)
    requires Told(o, t) && t.outcome == Continue
    ensures var after := RetractStep(t, false);
            && after.state == t.state && after.outcome == Continue
            && after.events == t.events + When(Standing(t.events).Some?, Retracted(Watched(o, t.events)))
            && Standing(after.events).None? && Watched(o, after.events) == Watched(o, t.events)
            && LastWarning(after.events) == LastWarning(t.events) && Broadcasts(after.events) == Broadcasts(t.events)
  {
    Told1(o, t.events, Retracted(t.state.hash));
  }

  lemma BroadcastTold(o: Options, t: Trace, latest: nat, hash: string)
    requires t.outcome == Continue && t.state.resubmissions == Broadcasts(t.events)
    requires AlertsTold(o, t.state, t.events) && Standing(t.events).None?
    ensures var after := BroadcastStep(t, latest, Some(hash));
            && Told(o, after) && after.outcome == Continue && after.state.missingPolls == 0
            && after.events == t.events + [Broadcast(hash, latest)]
  {
    Told1(o, t.events, Broadcast(hash, latest));
  }

  /** What a poll that misses the receipt must do. */
  predicate MissOutcome(o: Options, before: seq<Event>, misses: nat, latest: nat, hash: string, after: Trace) {
    var retracted := before + When(Standing(before).Some?, Retracted(Watched(o, before)));
    var warned := retracted + When(WarningDue(o, before, latest), Alert(o.deadline - latest));
    if latest >= o.deadline then after.events == warned && after.outcome == Threw(DisappearedAtDeadline)
    else if misses < o.missingLimit then after.events == warned && after.outcome == Continue
    else if Broadcasts(before) >= o.maxResubmissions then
      after.events == warned && after.outcome == Threw(RetriesExhausted)
    else after.events == warned + [Broadcast(hash, latest)] && after.outcome == Continue
  }

  lemma MissIsMissing(o: Options, t: Trace, p: Poll)
    requires t.outcome == Continue && !p.pastBudget && forall i :: 0 <= i < |p.receipts| ==> p.receipts[i].None?
    ensures PollStep(o, t, p) == MissingStep(o, t, p)
  {
  }

  lemma RetryOutcome(o: Options, t: Trace, p: Poll, latest: nat)
    requires Told(o, t) && t.outcome == Continue && Standing(t.events).None? && QuietMiss(p, latest)
    ensures var warned := t.events + When(WarningDue(o, t.events, latest), Alert(o.deadline - latest));
            var after := RetryStep(o, t, p);
            if latest >= o.deadline then after.events == warned && after.outcome == Threw(DisappearedAtDeadline)
            else if t.state.missingPolls < o.missingLimit then after.events == warned && after.outcome == Continue
            else if Broadcasts(t.events) >= o.maxResubmissions then
              after.events == warned && after.outcome == Threw(RetriesExhausted)
            else after.events == warned + [Broadcast(p.broadcast.value, latest)] && after.outcome == Continue
  {
    var hash: string :| HeadIs(p.latest, latest, hash);
    HeadIsRead(p.latest, latest, hash);
    AlertTold(o, t, latest);
  }

  lemma MissPolled(o: Options, t: Trace, p: Poll, latest: nat)
    requires Told(o, t) && t.outcome == Continue && QuietMiss(p, latest)
    ensures MissOutcome(o, t.events, t.state.missingPolls + 1, latest, p.broadcast.value, PollStep(o, t, p))
  {
    MissIsMissing(o, t, p);
    RetractTold(o, t);
    RetryOutcome(o, CountMissing(RetractStep(t, false)), p, latest);
  }

  // ----- Other polls

  /** A callback that was not called, or did not throw, is as good as one that never does. */
  lemma Unthrown(o: Options, t: Trace, latest: nat, receipt: Receipt, throws: bool)
    ensures AlertStep(o, t, latest, throws).outcome == Continue ==> AlertStep(o, t, latest, throws) == AlertStep(o, t, latest, false)
    ensures RetractStep(t, throws).outcome == Continue ==> RetractStep(t, throws) == RetractStep(t, false)
    ensures AcceptStep(t, receipt, throws).outcome == Continue ==> AcceptStep(t, receipt, throws) == AcceptStep(t, receipt, false)
  {
  }

  lemma AcceptTold(o: Options, t: Trace, receipt: Receipt)
    requires Told(o, t) && t.outcome == Continue
    ensures var after := AcceptStep(t, receipt, false);
            var placement := Placement(receipt.blockNumber, Lower(receipt.blockHash));
            && Told(o, after) && after.outcome == Continue
            && after.events == t.events + When(Standing(t.events) != Some(placement), Accepted(receipt))
            && Standing(after.events) == Some(placement) && Watched(o, after.events) == Watched(o, t.events)
            && LastWarning(after.events) == LastWarning(t.events) && Broadcasts(after.events) == Broadcasts(t.events)
            && after.state == t.state.(accepted := after.state.accepted)
  {
    Told1(o, t.events, Accepted(receipt));
    if Standing(t.events) == Some(Placement(receipt.blockNumber, Lower(receipt.blockHash))) {
      assert t.events + [] == t.events;
    }
  }

  lemma BroadcastKeepsTold(o: Options, t: Trace, latest: nat, answer: Option<string>)
    requires Told(o, t) && t.outcome == Continue && Standing(t.events).None?
    ensures BroadcastStep(t, latest, answer).outcome == Continue ==> Told(o, BroadcastStep(t, latest, answer))
  {
    if answer.Some? {
      BroadcastTold(o, t, latest, answer.value);
    }
  }

  lemma RetryTold(o: Options, t: Trace, p: Poll)
    requires Told(o, t) && t.outcome == Continue && Standing(t.events).None?
    ensures RetryStep(o, t, p).outcome == Continue ==> Told(o, RetryStep(o, t, p))
  {
    var latest := ReadAgreedBlock(p.latest);
    if latest.Ok? {
      var n := latest.value.number;
      Unthrown(o, t, n, Receipt("", 0, "", false), p.alertThrows);
      AlertTold(o, t, n);
      BroadcastKeepsTold(o, AlertStep(o, t, n, false), n, p.broadcast);
    }
  }

  lemma MissTold(o: Options, t: Trace, p: Poll)
    requires Told(o, t) && t.outcome == Continue
    ensures MissingStep(o, t, p).outcome == Continue ==> Told(o, MissingStep(o, t, p))
  {
    Unthrown(o, t, 0, Receipt("", 0, "", false), p.retractedThrows);
    RetractTold(o, t);
    RetryTold(o, CountMissing(RetractStep(t, false)), p);
  }

  lemma RetractedIsTold(o: Options, t: Trace, throws: bool)
    requires Told(o, t) && t.outcome == Continue && RetractStep(t, throws).outcome == Continue
    ensures var after := RetractStep(t, throws);
            && after.state == t.state && after.state.resubmissions == Broadcasts(after.events)
            && AlertsTold(o, after.state, after.events) && Standing(after.events).None?
  {
    Unthrown(o, t, 0, Receipt("", 0, "", false), throws);
    RetractTold(o, t);
  }

  lemma StaleTold(o: Options, t: Trace, p: Poll)
    requires Told(o, t) && t.outcome == Continue
    ensures StaleStep(o, t, p).outcome == Continue ==> Told(o, StaleStep(o, t, p))
  {
    var latest, retracted := ReadAgreedBlock(p.latest), RetractStep(t, p.retractedThrows);
    if latest.Ok? && retracted.outcome == Continue && p.broadcast.Some? {
      RetractedIsTold(o, t, p.retractedThrows);
      BroadcastTold(o, retracted, latest.value.number, p.broadcast.value);
    }
  }

  lemma FinalityTold(o: Options, t: Trace, receipt: Receipt, p: Poll)
    requires Told(o, t) && t.outcome == Continue
    ensures var after := FinalityStep(t, receipt, p);
            after.events == t.events && after.state == t.state && Told(o, after)
  {
  }

  lemma CanonicalTold(o: Options, t: Trace, receipt: Receipt, p: Poll)
    requires Told(o, t) && t.outcome == Continue
    ensures CanonicalStep(o, t, receipt, p).outcome == Continue ==> Told(o, CanonicalStep(o, t, receipt, p))
  {
    Unthrown(o, t, 0, receipt, p.acceptedThrows);
    AcceptTold(o, t, receipt);
    var accepted, latest := AcceptStep(t, receipt, false), ReadAgreedBlock(p.latest);
    if latest.Ok? {
      Unthrown(o, accepted, latest.value.number, receipt, p.alertThrows);
      AlertTold(o, accepted, latest.value.number);
      FinalityTold(o, AlertStep(o, accepted, latest.value.number, false), receipt, p);
    }
  }

  lemma PresentTold(o: Options, t: Trace, receipt: Receipt, p: Poll)
    requires Told(o, t) && t.outcome == Continue
    ensures PresentStep(o, t, receipt, p).outcome == Continue ==> Told(o, PresentStep(o, t, receipt, p))
  {
    var seen := t.(state := t.state.(missingPolls := 0));
    StaleTold(o, seen, p);
    CanonicalTold(o, seen, receipt, p);
  }

  lemma PollTold(o: Options, t: Trace, p: Poll)
    requires Told(o, t) && t.outcome == Continue
    ensures PollStep(o, t, p).outcome == Continue ==> Told(o, PollStep(o, t, p))
  {
    MissTold(o, t, p);
    var receipt := AgreedReceipt(p.receipts);
    if receipt.Ok? && receipt.value.Some? {
      PresentTold(o, t, receipt.value.value, p);
    }
  }

  /** However the callbacks and the providers behave, a watch that goes on keeps no more than its events tell. */
  lemma {:induction false} WatchIsTold(o: Options, polls: seq<Poll>)
    requires Watch(o, polls).outcome == Continue
    ensures Told(o, Watch(o, polls))
  {
    if polls != [] {
      WatchIsTold(o, polls[..|polls| - 1]);
      PollTold(o, Watch(o, polls[..|polls| - 1]), polls[|polls| - 1]);
    }
  }

  // ----- The missing polls, counted from the polls themselves

  ghost predicate NoReceipt(p: Poll) {
    forall i :: 0 <= i < |p.receipts| ==> p.receipts[i].None?
  }

  /** Polls without the receipt since it was last seen or last broadcast. */
  ghost function MissesSince(o: Options, polls: seq<Poll>): nat {
    if polls == [] then 0
    else
      var front, p := polls[..|polls| - 1], polls[|polls| - 1];
      if NoReceipt(p) && Broadcasts(Watch(o, polls).events) == Broadcasts(Watch(o, front).events)
      then MissesSince(o, front) + 1 else 0
  }

  lemma MissCounts(o: Options, t: Trace, p: Poll)
    requires t.outcome == Continue && PollStep(o, t, p).outcome == Continue
    requires t.state.resubmissions == Broadcasts(t.events)
    requires PollStep(o, t, p).state.resubmissions == Broadcasts(PollStep(o, t, p).events)
    ensures PollStep(o, t, p).state.missingPolls
            == if NoReceipt(p) && PollStep(o, t, p).state.resubmissions == t.state.resubmissions then t.state.missingPolls + 1 else 0
  {
    var receipt := AgreedReceipt(p.receipts);
    if receipt.Ok? && receipt.value.Some? {
      PresentClearsMissing(o, t, receipt.value.value, p);
    }
  }

  lemma {:induction false} MissesAreCounted(o: Options, polls: seq<Poll>)
    requires Watch(o, polls).outcome == Continue
    ensures Watch(o, polls).state.missingPolls == MissesSince(o, polls)
  {
    if polls != [] {
      var front := polls[..|polls| - 1];
      MissesAreCounted(o, front);
      WatchIsTold(o, front);
      WatchIsTold(o, polls);
      MissCounts(o, Watch(o, front), polls[|polls| - 1]);
    }
  }

  lemma WatchPush(o: Options, polls: seq<Poll>, p: Poll)
    requires Watch(o, polls).outcome == Continue
    ensures Watch(o, polls + [p]) == PollStep(o, Watch(o, polls), p)
  {
    assert (polls + [p])[..|polls|] == polls;
  }

  /**
   * A poll in which nobody has the receipt takes back a standing acceptance,
   * warns if a warning is due, and then gives up at the deadline, waits for
   * more misses, gives up on retries or broadcasts again: exactly these.
   */
  lemma MissingPollOutcome(o: Options, polls: seq<Poll>, p: Poll, latest: nat)
    requires Watch(o, polls).outcome == Continue && QuietMiss(p, latest)
    ensures MissOutcome(o, Watch(o, polls).events, MissesSince(o, polls) + 1, latest, p.broadcast.value, Watch(o, polls + [p]))
  {
    WatchPush(o, polls, p);
    WatchIsTold(o, polls);
    MissesAreCounted(o, polls);
    MissPolled(o, Watch(o, polls), p, latest);
  }

  // ----- A receipt is there

  /** Every provider has this successful receipt, and the watched calldata in it. */
  predicate Carried(o: Options, p: Poll, receipt: Receipt) {
    && receipt.success && Unanimous(p.receipts, receipt) && |p.inputs| == |p.receipts|
    && forall i :: 0 <= i < |p.inputs| ==> p.inputs[i].Some? && Lower(p.inputs[i].value) == Lower(o.expectedCalldata)
  }

  lemma CarriedIsAgreed(o: Options, p: Poll, receipt: Receipt)
    requires Carried(o, p, receipt)
    ensures AgreedReceipt(p.receipts).Ok? && AgreedReceipt(p.receipts).value.Some?
    ensures var agreed := AgreedReceipt(p.receipts).value.value;
            && agreed.success && agreed.blockNumber == receipt.blockNumber
            && Lower(agreed.blockHash) == Lower(receipt.blockHash) && Lower(agreed.transactionHash) == Lower(receipt.transactionHash)
    ensures CalldataMatches(p.inputs, o.expectedCalldata)
  {
    assert p.receipts[0].Some?;
    assert forall i :: 0 <= i < |p.receipts| ==> SameReceipt(p.receipts[0].value, p.receipts[i].value);
  }

  /** A receipt whose block the providers no longer call canonical: retract, then retry while the deadline allows. */
  predicate StaleOutcome(o: Options, before: seq<Event>, latest: nat, hash: string, after: Trace) {
    var retracted := before + When(Standing(before).Some?, Retracted(Watched(o, before)));
    if latest >= o.deadline || Broadcasts(before) >= o.maxResubmissions then
      after.events == retracted && after.outcome == Threw(CannotRetry)
    else after.events == retracted + [Broadcast(hash, latest)] && after.outcome == Continue
  }

  ghost predicate Stale(p: Poll, receipt: Receipt) {
    exists number: nat, hash: string :: HeadIs(p.canonical, number, hash) && Lower(hash) != Lower(receipt.blockHash)
  }

  lemma StalePolled(o: Options, t: Trace, p: Poll, receipt: Receipt)
    requires t.outcome == Continue && Carried(o, p, receipt) && Stale(p, receipt) && !p.pastBudget
    ensures PollStep(o, t, p) == StaleStep(o, t.(state := t.state.(missingPolls := 0)), p)
  {
    CarriedIsAgreed(o, p, receipt);
    var number: nat, other: string :| HeadIs(p.canonical, number, other) && Lower(other) != Lower(receipt.blockHash);
    HeadIsRead(p.canonical, number, other);
  }

  lemma StaleStepOutcome(o: Options, t: Trace, p: Poll, latest: nat, hash: string)
    requires Told(o, t) && t.outcome == Continue
    requires !p.retractedThrows && p.broadcast.Some? && HeadIs(p.latest, latest, hash)
    ensures StaleOutcome(o, t.events, latest, p.broadcast.value, StaleStep(o, t, p))
  {
    HeadIsRead(p.latest, latest, hash);
    RetractTold(o, t);
  }

  lemma UncountedIsTold(o: Options, t: Trace)
    requires Told(o, t)
    ensures Told(o, t.(state := t.state.(missingPolls := 0)))
  {
  }

  lemma StaleTraceOutcome(o: Options, t: Trace, p: Poll, latest: nat, hash: string)
    requires Told(o, t) && t.outcome == Continue
    requires PollStep(o, t, p) == StaleStep(o, t.(state := t.state.(missingPolls := 0)), p)
    requires !p.retractedThrows && p.broadcast.Some? && HeadIs(p.latest, latest, hash)
    ensures StaleOutcome(o, t.events, latest, p.broadcast.value, PollStep(o, t, p))
  {
    UncountedIsTold(o, t);
    StaleStepOutcome(o, t.(state := t.state.(missingPolls := 0)), p, latest, hash);
  }

  lemma StalePollOutcome(o: Options, polls: seq<Poll>, p: Poll, receipt: Receipt, latest: nat, hash: string)
    requires Watch(o, polls).outcome == Continue && Carried(o, p, receipt) && Stale(p, receipt)
    requires !p.pastBudget && !p.retractedThrows && p.broadcast.Some? && HeadIs(p.latest, latest, hash)
    ensures StaleOutcome(o, Watch(o, polls).events, latest, p.broadcast.value, Watch(o, polls + [p]))
  {
    WatchPush(o, polls, p);
    WatchIsTold(o, polls);
    StalePolled(o, Watch(o, polls), p, receipt);
    StaleTraceOutcome(o, Watch(o, polls), p, latest, hash);
  }

  /** Both callbacks hold, and every provider gives this latest head. */
  ghost predicate QuietPoll(p: Poll, latest: nat) {
    !p.pastBudget && !p.acceptedThrows && !p.alertThrows && exists hash: string :: HeadIs(p.latest, latest, hash)
  }

  /** What a canonical receipt adds to the events: its acceptance if it is new, a warning if one is due. */
  predicate CanonicalEvents(o: Options, before: seq<Event>, receipt: Receipt, latest: nat, after: seq<Event>) {
    var placement := Placement(receipt.blockNumber, Lower(receipt.blockHash));
    after == before + When(Standing(before) != Some(placement), Accepted(receipt))
                    + When(WarningDue(o, before, latest), Alert(o.deadline - latest))
  }

  lemma CanonicalPolled(o: Options, t: Trace, p: Poll, receipt: Receipt, latest: nat)
    requires Told(o, t) && t.outcome == Continue && QuietPoll(p, latest)
    requires Carried(o, p, receipt) && BlockHashIs(p.canonical, receipt.blockHash)
    ensures var agreed := AgreedReceipt(p.receipts);
            && agreed.Ok? && agreed.value.Some? && CanonicalEvents(o, t.events, agreed.value.value, latest, PollStep(o, t, p).events)
            && exists middle: Trace ::
                 && middle.outcome == Continue && middle.state.resubmissions == t.state.resubmissions
                 && PollStep(o, t, p) == FinalityStep(middle, agreed.value.value, p)
  {
    CarriedIsAgreed(o, p, receipt);
    var agreed := AgreedReceipt(p.receipts).value.value;
    var number: nat :| HeadIs(p.canonical, number, receipt.blockHash);
    HeadIsRead(p.canonical, number, receipt.blockHash);
    var hash: string :| HeadIs(p.latest, latest, hash);
    HeadIsRead(p.latest, latest, hash);
    var seen := t.(state := t.state.(missingPolls := 0));
    AcceptTold(o, seen, agreed);
    var accepted := AcceptStep(seen, agreed, false);
    AlertTold(o, accepted, latest);
    var alerted := AlertStep(o, accepted, latest, false);
    FinalityTold(o, alerted, agreed, p);
    assert PollStep(o, t, p) == FinalityStep(alerted, agreed, p);
  }

  /** A poll that sees the canonical receipt publishes its acceptance exactly when it is new, and warns exactly when due. */
  lemma CanonicalPollEvents(o: Options, polls: seq<Poll>, p: Poll, receipt: Receipt, latest: nat)
    requires Watch(o, polls).outcome == Continue && QuietPoll(p, latest)
    requires Carried(o, p, receipt) && BlockHashIs(p.canonical, receipt.blockHash)
    ensures exists agreed: Receipt ::
              && agreed.blockNumber == receipt.blockNumber && Lower(agreed.blockHash) == Lower(receipt.blockHash)
              && CanonicalEvents(o, Watch(o, polls).events, agreed, latest, Watch(o, polls + [p]).events)
  {
    WatchPush(o, polls, p);
    WatchIsTold(o, polls);
    CarriedIsAgreed(o, p, receipt);
    CanonicalPolled(o, Watch(o, polls), p, receipt, latest);
  }

  lemma FinalIsReturned(o: Options, t: Trace, p: Poll, agreed: Receipt, f: Finalized)
    requires Vouched(o, p, f) && agreed.blockNumber == f.receipt.blockNumber && Lower(agreed.blockHash) == Lower(f.receipt.blockHash)
    ensures FinalityStep(t, agreed, p).outcome.Done?
    ensures FinalityStep(t, agreed, p).outcome.settlement.resubmissions == t.state.resubmissions
  {
    HeadIsRead(p.finalized, f.finalizedNumber, f.finalizedHash);
    var number: nat :| HeadIs(p.finalBlock, number, f.receipt.blockHash);
    HeadIsRead(p.finalBlock, number, f.receipt.blockHash);
    var again: Receipt :| Lower(again.blockHash) == Lower(f.receipt.blockHash) && Unanimous(p.finalReceipts, again);
    UnanimousIsAgreed(p.finalReceipts, again);
  }

  lemma UnanimousIsAgreed(answers: seq<Option<Receipt>>, receipt: Receipt)
    requires Unanimous(answers, receipt)
    ensures AgreedReceipt(answers).Ok? && AgreedReceipt(answers).value.Some?
    ensures Lower(AgreedReceipt(answers).value.value.blockHash) == Lower(receipt.blockHash)
  {
    assert answers[0].Some?;
    assert forall i :: 0 <= i < |answers| ==> SameReceipt(answers[0].value, answers[i].value);
  }

  /**
   * A poll within budget whose providers agree on the latest head, and whose
   * callbacks hold, ends the watch with a settlement if and only if its answers
   * vouch for one. What is returned is vouched for and counts the rebroadcasts.
   */
  lemma WatchReturnsIff(o: Options, polls: seq<Poll>, p: Poll, latest: nat)
    requires Watch(o, polls).outcome == Continue && QuietPoll(p, latest)
    ensures Watch(o, polls + [p]).outcome.Done? <==> exists f: Finalized :: Vouched(o, p, f)
    ensures Watch(o, polls + [p]).outcome.Done? ==>
              var f := Watch(o, polls + [p]).outcome.settlement;
              Vouched(o, p, f) && f.resubmissions == Broadcasts(Watch(o, polls).events)
  {
    WatchPush(o, polls, p);
    WatchIsTold(o, polls);
    var t := Watch(o, polls);
    if f: Finalized :| Vouched(o, p, f) {
      CarriedIsAgreed(o, p, f.receipt);
      CanonicalPolled(o, t, p, f.receipt, latest);
      var agreed := AgreedReceipt(p.receipts).value.value;
      var middle: Trace :| middle.outcome == Continue && middle.state.resubmissions == t.state.resubmissions
                           && PollStep(o, t, p) == FinalityStep(middle, agreed, p);
      FinalIsReturned(o, middle, p, agreed, f);
    }
    if PollStep(o, t, p).outcome.Done? {
      DoneIsVouched(o, t, p);
    }
  }
}
