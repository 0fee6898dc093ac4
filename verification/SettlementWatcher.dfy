/**
 * Watching an operator's settlement until finality covers it, against providers
 * that may answer anything. One poll's answers are the adversary's choice.
 */
module SettlementWatcher {
  import opened Wrappers
  import opened HexText

  datatype Receipt = Receipt(transactionHash: string, blockNumber: nat, blockHash: string, success: bool)

  datatype BlockAnswer = BlockAnswer(number: Option<nat>, hash: Option<string>)

  datatype Block = Block(number: nat, hash: string)

  /** What every provider answers during one poll, in provider order; one that threw is None or missing. */
  datatype Poll = Poll(
    pastBudget: bool,
    receipts: seq<Option<Receipt>>,
    inputs: seq<Option<string>>,
    canonical: seq<Option<BlockAnswer>>,
    latest: seq<Option<BlockAnswer>>,
    finalized: seq<Option<BlockAnswer>>,
    finalReceipts: seq<Option<Receipt>>,
    finalBlock: seq<Option<BlockAnswer>>,
    broadcast: Option<string>,
    acceptedThrows: bool,
    retractedThrows: bool,
    alertThrows: bool)

  datatype Options = Options(
    initialHash: string,
    expectedCalldata: string,
    deadline: nat,
    alertBlocks: int,
    missingLimit: nat,
    maxResubmissions: nat)

  datatype WatchError =
    | OverBudget | Disagreement | NoUsableBlock | ProviderThrew | Reverted | WrongCalldata
    | DisappearedAtDeadline | RetriesExhausted | CannotRetry | BroadcastThrew | CallbackThrew

  datatype Finalized = Finalized(receipt: Receipt, finalizedNumber: nat, finalizedHash: string, resubmissions: nat)

  datatype Outcome = Continue | Done(settlement: Finalized) | Threw(error: WatchError)

  /** What the caller and the network observe. */
  datatype Event =
    | Accepted(receipt: Receipt)
    | Retracted(hash: string)
    | Alert(remaining: int)
    | Broadcast(hash: string, latest: nat)

  datatype Placement = Placement(number: nat, hash: string)

  datatype WatchState = WatchState(
    hash: string, missingPolls: nat, resubmissions: nat, accepted: Option<Placement>, alertedAt: Option<nat>)

  datatype Trace = Trace(state: WatchState, events: seq<Event>, outcome: Outcome)

  // ----- Agreement between providers

  predicate SameBlock(left: BlockAnswer, right: BlockAnswer) {
    && left.number == right.number
    && (left.hash.Some? <==> right.hash.Some?)
    && (left.hash.Some? ==> Lower(left.hash.value) == Lower(right.hash.value))
  }

  function ReadAgreedBlock(answers: seq<Option<BlockAnswer>>): Result<Block, WatchError> {
    if exists i :: 0 <= i < |answers| && answers[i].None? then Err(ProviderThrew)
    else if answers == [] then Err(NoUsableBlock)
    else
      var first := answers[0].value;
      if first.number.None? || first.hash.None? || first.hash.value == "" then Err(NoUsableBlock)
      else if exists i :: 0 <= i < |answers| && !SameBlock(first, answers[i].value) then Err(Disagreement)
      else Ok(Block(first.number.value, first.hash.value))
  }

  predicate SameReceipt(left: Receipt, right: Receipt) {
    && Lower(left.transactionHash) == Lower(right.transactionHash)
    && left.blockNumber == right.blockNumber
    && Lower(left.blockHash) == Lower(right.blockHash)
    && left.success == right.success
  }

  /** None when every provider lacks the receipt; a partial or differing answer is an error. */
  function AgreedReceipt(answers: seq<Option<Receipt>>): Result<Option<Receipt>, WatchError> {
    if forall i :: 0 <= i < |answers| ==> answers[i].None? then Ok(None)
    else if answers[0].None? then Err(Disagreement)
    else if exists i :: 0 <= i < |answers| && (answers[i].None? || !SameReceipt(answers[0].value, answers[i].value)) then
      Err(Disagreement)
    else Ok(answers[0])
  }

  predicate CalldataMatches(inputs: seq<Option<string>>, expected: string) {
    forall i :: 0 <= i < |inputs| ==> inputs[i].Some? && Lower(inputs[i].value) == Lower(expected)
  }

  // ----- One poll

  function Throw(t: Trace, error: WatchError): Trace {
    t.(outcome := Threw(error))
  }

  function Emit(t: Trace, event: Event): (r: Trace)
    ensures r == t.(events := t.events + [event])
  {
    t.(events := t.events + [event])
  }

  /** Warn once per head when the deadline is near; a throwing callback ends the watch. */
  function AlertStep(o: Options, t: Trace, latest: nat, throws: bool): Trace {
    var remaining := o.deadline - latest;
    if remaining <= o.alertBlocks && t.state.alertedAt != Some(latest) then
      var alerted := Emit(t.(state := t.state.(alertedAt := Some(latest))), Alert(remaining));
      if throws then Throw(alerted, CallbackThrew) else alerted
    else t
  }

  function RetractStep(t: Trace, throws: bool): Trace {
    if t.state.accepted.Some? then
      var retracted := Emit(t, Retracted(t.state.hash));
      if throws then Throw(retracted, CallbackThrew) else retracted
    else t
  }

  function BroadcastStep(t: Trace, latest: nat, answer: Option<string>): Trace {
    if answer.None? then Throw(t, BroadcastThrew)
    else
      Emit(t.(state := t.state.(hash := answer.value, resubmissions := t.state.resubmissions + 1,
                                missingPolls := 0, accepted := None)),
           Broadcast(answer.value, latest))
  }

  /** The deadline and the retry budget, read once the missing poll is counted. */
  function RetryStep(o: Options, missing: Trace, p: Poll): Trace {
    var latest := ReadAgreedBlock(p.latest);
    if latest.Err? then Throw(missing, latest.error)
    else
      var alerted := AlertStep(o, missing, latest.value.number, p.alertThrows);
      if alerted.outcome != Continue then alerted
      else if latest.value.number >= o.deadline then Throw(alerted, DisappearedAtDeadline)
      else if alerted.state.missingPolls < o.missingLimit then alerted
      else if alerted.state.resubmissions >= o.maxResubmissions then Throw(alerted, RetriesExhausted)
      else BroadcastStep(alerted, latest.value.number, p.broadcast)
  }

  function CountMissing(t: Trace): Trace {
    t.(state := t.state.(accepted := None, missingPolls := t.state.missingPolls + 1))
  }

  /** No provider has the receipt. */
  function MissingStep(o: Options, t: Trace, p: Poll): Trace {
    var retracted := RetractStep(t, p.retractedThrows);
    if retracted.outcome != Continue then retracted else RetryStep(o, CountMissing(retracted), p)
  }

  /** A receipt survives in a cache while its block is no longer canonical. */
  function StaleStep(o: Options, t: Trace, p: Poll): Trace {
    var latest := ReadAgreedBlock(p.latest);
    if latest.Err? then Throw(t, latest.error)
    else
      var retracted := RetractStep(t, p.retractedThrows);
      if retracted.outcome != Continue then retracted
      else if latest.value.number >= o.deadline || t.state.resubmissions >= o.maxResubmissions then
        Throw(retracted, CannotRetry)
      else BroadcastStep(retracted, latest.value.number, p.broadcast)
  }

  function AcceptStep(t: Trace, receipt: Receipt, throws: bool): Trace {
    var placement := Placement(receipt.blockNumber, Lower(receipt.blockHash));
    if t.state.accepted == Some(placement) then t
    else
      var accepted := Emit(t.(state := t.state.(accepted := Some(placement))), Accepted(receipt));
      if throws then Throw(accepted, CallbackThrew) else accepted
  }

  /** The last receipt and block reads after finality was observed. */
  function FinalityStep(t: Trace, receipt: Receipt, p: Poll): Trace {
    var finalized := ReadAgreedBlock(p.finalized);
    if finalized.Err? then Throw(t, finalized.error)
    else if finalized.value.number < receipt.blockNumber then t
    else
      var again, block := AgreedReceipt(p.finalReceipts), ReadAgreedBlock(p.finalBlock);
      if again.Err? then Throw(t, again.error)
      else if block.Err? then Throw(t, block.error)
      else if again.value.Some? && Lower(again.value.value.blockHash) == Lower(receipt.blockHash)
              && Lower(block.value.hash) == Lower(receipt.blockHash) then
        t.(outcome := Done(Finalized(receipt, finalized.value.number, finalized.value.hash, t.state.resubmissions)))
      else t
  }

  function HeadStep(o: Options, t: Trace, receipt: Receipt, p: Poll): Trace {
    var latest := ReadAgreedBlock(p.latest);
    if latest.Err? then Throw(t, latest.error)
    else
      var alerted := AlertStep(o, t, latest.value.number, p.alertThrows);
      if alerted.outcome != Continue then alerted else FinalityStep(alerted, receipt, p)
  }

  /** The receipt's block is canonical: publish the acceptance, then look for finality. */
  function CanonicalStep(o: Options, seen: Trace, receipt: Receipt, p: Poll): Trace {
    var accepted := AcceptStep(seen, receipt, p.acceptedThrows);
    if accepted.outcome != Continue then accepted else HeadStep(o, accepted, receipt, p)
  }

  function PresentStep(o: Options, t: Trace, receipt: Receipt, p: Poll): Trace {
    var seen := t.(state := t.state.(missingPolls := 0));
    if !receipt.success then Throw(seen, Reverted)
    else if |p.inputs| != |p.receipts| || exists i :: 0 <= i < |p.inputs| && p.inputs[i].None? then Throw(seen, ProviderThrew)
    else if !CalldataMatches(p.inputs, o.expectedCalldata) then Throw(seen, WrongCalldata)
    else
      var canonical := ReadAgreedBlock(p.canonical);
      if canonical.Err? then Throw(seen, canonical.error)
      else if Lower(canonical.value.hash) != Lower(receipt.blockHash) then StaleStep(o, seen, p)
      else CanonicalStep(o, seen, receipt, p)
  }

  function PollStep(o: Options, t: Trace, p: Poll): Trace
    requires t.outcome == Continue
  {
    if p.pastBudget then Throw(t, OverBudget)
    else
      var receipt := AgreedReceipt(p.receipts);
      if receipt.Err? then Throw(t, receipt.error)
      else if receipt.value.None? then MissingStep(o, t, p)
      else PresentStep(o, t, receipt.value.value, p)
  }

  function Initial(o: Options): Trace {
    Trace(WatchState(o.initialHash, 0, 0, None, None), [], Continue)
  }

  /** The watch over these polls; once it has ended it ignores the rest. */
  function Watch(o: Options, polls: seq<Poll>): Trace {
    if polls == [] then Initial(o)
    else
      var before := Watch(o, polls[..|polls| - 1]);
      if before.outcome != Continue then before else PollStep(o, before, polls[|polls| - 1])
  }

  lemma {:induction false} EndedStays(o: Options, polls: seq<Poll>, k: nat)
    requires k <= |polls| && Watch(o, polls[..k]).outcome != Continue
    ensures Watch(o, polls) == Watch(o, polls[..k])
  {
    if k < |polls| {
      assert polls[..|polls| - 1][..k] == polls[..k];
      EndedStays(o, polls[..|polls| - 1], k);
    } else {
      assert polls[..k] == polls;
    }
  }

  /** The watcher's loop, run for as long as polls are supplied. */
  method WatchSettlement(o: Options, polls: seq<Poll>) returns (outcome: Outcome, events: seq<Event>)
    ensures Trace(Watch(o, polls).state, events, outcome) == Watch(o, polls)
  {
    var t := Initial(o);
    var i := 0;
    while i < |polls|
      invariant i <= |polls|
      invariant t == Watch(o, polls[..i])
      invariant t.outcome == Continue
    {
      assert polls[..i + 1][..i] == polls[..i];
      t := PollStep(o, t, polls[i]);
      i := i + 1;
      if t.outcome != Continue {
        EndedStays(o, polls, i);
        return t.outcome, t.events;
      }
    }
    assert polls[..i] == polls;
    return t.outcome, t.events;
  }

  // ----- Guarantees about agreement

  /** An agreed block is one every provider answered. */
  lemma AgreedBlockIsUnanimous(answers: seq<Option<BlockAnswer>>)
    ensures ReadAgreedBlock(answers).Ok? <==>
              && answers != []
              && exists block: Block :: block.hash != "" && forall i :: 0 <= i < |answers| ==>
                   && answers[i].Some? && answers[i].value.number == Some(block.number)
                   && answers[i].value.hash.Some? && Lower(answers[i].value.hash.value) == Lower(block.hash)
    ensures ReadAgreedBlock(answers).Ok? ==> forall i :: 0 <= i < |answers| ==>
              && answers[i].Some? && answers[i].value.number == Some(ReadAgreedBlock(answers).value.number)
              && answers[i].value.hash.Some?
              && Lower(answers[i].value.hash.value) == Lower(ReadAgreedBlock(answers).value.hash)
  {
    if ReadAgreedBlock(answers).Ok? {
      var block := ReadAgreedBlock(answers).value;
      assert forall i :: 0 <= i < |answers| ==> answers[i].Some? && SameBlock(answers[0].value, answers[i].value);
      assert block.hash != "";
    }
    if block: Block :| answers != [] && block.hash != "" && forall i :: 0 <= i < |answers| ==>
                 && answers[i].Some? && answers[i].value.number == Some(block.number)
                 && answers[i].value.hash.Some? && Lower(answers[i].value.hash.value) == Lower(block.hash) {
      assert |answers[0].value.hash.value| == |block.hash|;
    }
  }

  // ----- Guarantees about whole watches

  /** Whether the last acceptance published has not been retracted. */
  function Outstanding(events: seq<Event>): bool {
    if events == [] then false
    else
      var last := events[|events| - 1];
      if last.Accepted? then true else if last.Retracted? then false else Outstanding(events[..|events| - 1])
  }

  /** Every retraction takes back an acceptance still standing. */
  predicate Nested(events: seq<Event>) {
    events == [] ||
    (&& Nested(events[..|events| - 1])
     && (events[|events| - 1].Retracted? ==> Outstanding(events[..|events| - 1])))
  }

  function Broadcasts(events: seq<Event>): nat {
    if events == [] then 0
    else Broadcasts(events[..|events| - 1]) + (if events[|events| - 1].Broadcast? then 1 else 0)
  }

  /** Polls, newest first, in which no provider had the receipt. */
  function TrailingMissing(polls: seq<Poll>): nat {
    if polls == [] || AgreedReceipt(polls[|polls| - 1].receipts) != Ok(None) then 0
    else TrailingMissing(polls[..|polls| - 1]) + 1
  }

  predicate Good(o: Options, t: Trace) {
    && Nested(t.events)
    && Broadcasts(t.events) == t.state.resubmissions <= o.maxResubmissions
    && (t.outcome == Continue ==> (t.state.accepted.Some? <==> Outstanding(t.events)))
    && (forall i :: 0 <= i < |t.events| && t.events[i].Broadcast? ==> t.events[i].latest < o.deadline)
    && (t.outcome.Done? ==> t.outcome.settlement.resubmissions == t.state.resubmissions)
  }

  lemma EmitOne(events: seq<Event>, event: Event)
    ensures (events + [event])[..|events|] == events
    ensures Outstanding(events + [event])
            == if event.Accepted? then true else if event.Retracted? then false else Outstanding(events)
    ensures Nested(events + [event]) <==> Nested(events) && (event.Retracted? ==> Outstanding(events))
    ensures Broadcasts(events + [event]) == Broadcasts(events) + (if event.Broadcast? then 1 else 0)
  {
    assert (events + [event])[..|events|] == events;
  }

  lemma AlertKeepsGood(o: Options, t: Trace, latest: nat, throws: bool)
    requires Good(o, t) && t.outcome == Continue
    ensures var after := AlertStep(o, t, latest, throws);
            && Good(o, after) && after.state == t.state.(alertedAt := after.state.alertedAt)
            && Outstanding(after.events) == Outstanding(t.events)
  {
    EmitOne(t.events, Alert(o.deadline - latest));
  }

  lemma RetractLeavesNothing(o: Options, t: Trace, throws: bool)
    requires Good(o, t) && t.outcome == Continue
    ensures var after := RetractStep(t, throws);
            && after.state == t.state && Nested(after.events) && !Outstanding(after.events)
            && Broadcasts(after.events) == Broadcasts(t.events)
            && (forall i :: 0 <= i < |after.events| && after.events[i].Broadcast? ==> after.events[i].latest < o.deadline)
            && (after.outcome == Continue || after.outcome == Threw(CallbackThrew))
  {
    EmitOne(t.events, Retracted(t.state.hash));
  }

  lemma BroadcastKeepsGood(o: Options, t: Trace, latest: nat, answer: Option<string>)
    requires Good(o, t.(state := t.state.(accepted := None))) && t.outcome == Continue
    requires latest < o.deadline && t.state.resubmissions < o.maxResubmissions
    ensures Good(o, BroadcastStep(t, latest, answer))
  {
    if answer.Some? {
      EmitOne(t.events, Broadcast(answer.value, latest));
    }
  }

  lemma RetryKeepsGood(o: Options, t: Trace, p: Poll)
    requires Good(o, t) && t.outcome == Continue && t.state.accepted.None?
    ensures Good(o, RetryStep(o, t, p))
  {
    var latest := ReadAgreedBlock(p.latest);
    if latest.Ok? {
      AlertKeepsGood(o, t, latest.value.number, p.alertThrows);
      var alerted := AlertStep(o, t, latest.value.number, p.alertThrows);
      if alerted.outcome == Continue && latest.value.number < o.deadline
         && alerted.state.resubmissions < o.maxResubmissions {
        assert alerted.(state := alerted.state.(accepted := None)) == alerted;
        BroadcastKeepsGood(o, alerted, latest.value.number, p.broadcast);
      }
    }
  }

  lemma MissingKeepsGood(o: Options, t: Trace, p: Poll)
    requires Good(o, t) && t.outcome == Continue
    ensures Good(o, MissingStep(o, t, p))
  {
    RetractLeavesNothing(o, t, p.retractedThrows);
    var retracted := RetractStep(t, p.retractedThrows);
    if retracted.outcome == Continue {
      assert Good(o, CountMissing(retracted));
      RetryKeepsGood(o, CountMissing(retracted), p);
    }
  }

  lemma StaleKeepsGood(o: Options, t: Trace, p: Poll)
    requires Good(o, t) && t.outcome == Continue
    ensures Good(o, StaleStep(o, t, p))
  {
    RetractLeavesNothing(o, t, p.retractedThrows);
    var latest, retracted := ReadAgreedBlock(p.latest), RetractStep(t, p.retractedThrows);
    if latest.Ok? && retracted.outcome == Continue && latest.value.number < o.deadline
       && t.state.resubmissions < o.maxResubmissions {
      BroadcastKeepsGood(o, retracted, latest.value.number, p.broadcast);
    }
  }

  lemma AcceptKeepsGood(o: Options, t: Trace, receipt: Receipt, throws: bool)
    requires Good(o, t) && t.outcome == Continue
    ensures Good(o, AcceptStep(t, receipt, throws))
  {
    EmitOne(t.events, Accepted(receipt));
  }

  lemma FinalityKeepsGood(o: Options, t: Trace, receipt: Receipt, p: Poll)
    requires Good(o, t) && t.outcome == Continue
    ensures Good(o, FinalityStep(t, receipt, p))
  {
    var after := FinalityStep(t, receipt, p);
    assert after.events == t.events && after.state == t.state;
  }

  lemma HeadKeepsGood(o: Options, t: Trace, receipt: Receipt, p: Poll)
    requires Good(o, t) && t.outcome == Continue
    ensures Good(o, HeadStep(o, t, receipt, p))
  {
    var latest := ReadAgreedBlock(p.latest);
    if latest.Ok? {
      AlertKeepsGood(o, t, latest.value.number, p.alertThrows);
      var alerted := AlertStep(o, t, latest.value.number, p.alertThrows);
      if alerted.outcome == Continue {
        FinalityKeepsGood(o, alerted, receipt, p);
      }
    }
  }

  lemma CanonicalKeepsGood(o: Options, seen: Trace, receipt: Receipt, p: Poll)
    requires Good(o, seen) && seen.outcome == Continue
    ensures Good(o, CanonicalStep(o, seen, receipt, p))
  {
    AcceptKeepsGood(o, seen, receipt, p.acceptedThrows);
    var accepted := AcceptStep(seen, receipt, p.acceptedThrows);
    if accepted.outcome == Continue {
      HeadKeepsGood(o, accepted, receipt, p);
    }
  }

  lemma PresentKeepsGood(o: Options, t: Trace, receipt: Receipt, p: Poll)
    requires Good(o, t) && t.outcome == Continue
    ensures Good(o, PresentStep(o, t, receipt, p))
  {
    var seen := t.(state := t.state.(missingPolls := 0));
    assert Good(o, seen);
    StaleKeepsGood(o, seen, p);
    CanonicalKeepsGood(o, seen, receipt, p);
  }

  /**
   * Against any answers whatever: at most the permitted rebroadcasts, each made
   * while the agreed head was below the deadline, and every retraction taking
   * back an acceptance still standing.
   */
  lemma {:induction false} WatchIsGood(o: Options, polls: seq<Poll>)
    ensures Good(o, Watch(o, polls))
  {
    if polls != [] {
      var before, p := Watch(o, polls[..|polls| - 1]), polls[|polls| - 1];
      WatchIsGood(o, polls[..|polls| - 1]);
      if before.outcome == Continue && !p.pastBudget {
        var receipt := AgreedReceipt(p.receipts);
        if receipt.Ok? && receipt.value.None? {
          MissingKeepsGood(o, before, p);
        } else if receipt.Ok? {
          PresentKeepsGood(o, before, receipt.value.value, p);
        }
      }
    }
  }

  /** Every provider vouches for this receipt in these answers. */
  predicate Unanimous(answers: seq<Option<Receipt>>, receipt: Receipt) {
    && answers != []
    && forall i :: 0 <= i < |answers| ==>
         && answers[i].Some?
         && Lower(answers[i].value.transactionHash) == Lower(receipt.transactionHash)
         && answers[i].value.blockNumber == receipt.blockNumber
         && Lower(answers[i].value.blockHash) == Lower(receipt.blockHash)
         && answers[i].value.success == receipt.success
  }

  /** Every provider answers this block. */
  predicate HeadIs(answers: seq<Option<BlockAnswer>>, number: nat, hash: string) {
    && answers != [] && hash != ""
    && forall i :: 0 <= i < |answers| ==>
         && answers[i].Some? && answers[i].value.number == Some(number)
         && answers[i].value.hash.Some? && Lower(answers[i].value.hash.value) == Lower(hash)
  }

  ghost predicate BlockHashIs(answers: seq<Option<BlockAnswer>>, hash: string) {
    exists number: nat :: HeadIs(answers, number, hash)
  }

  /** What one poll must have answered for the watch to return this settlement. */
  ghost predicate Vouched(o: Options, p: Poll, f: Finalized) {
    && f.receipt.success
    && Unanimous(p.receipts, f.receipt)
    && |p.inputs| == |p.receipts|
    && (forall i :: 0 <= i < |p.inputs| ==> p.inputs[i].Some? && Lower(p.inputs[i].value) == Lower(o.expectedCalldata))
    && BlockHashIs(p.canonical, f.receipt.blockHash)
    && HeadIs(p.finalized, f.finalizedNumber, f.finalizedHash)
    && f.finalizedNumber >= f.receipt.blockNumber
    && BlockHashIs(p.finalBlock, f.receipt.blockHash)
    && (exists again: Receipt ::
          Lower(again.blockHash) == Lower(f.receipt.blockHash) && Unanimous(p.finalReceipts, again))
  }

  lemma AgreedReceiptIsUnanimous(answers: seq<Option<Receipt>>)
    requires AgreedReceipt(answers).Ok? && AgreedReceipt(answers).value.Some?
    ensures Unanimous(answers, AgreedReceipt(answers).value.value)
  {
  }

  lemma ReadBlockIsHead(answers: seq<Option<BlockAnswer>>, hash: string)
    requires ReadAgreedBlock(answers).Ok? && Lower(ReadAgreedBlock(answers).value.hash) == Lower(hash)
    ensures HeadIs(answers, ReadAgreedBlock(answers).value.number, hash)
  {
    AgreedBlockIsUnanimous(answers);
    assert ReadAgreedBlock(answers).value.hash != "";
    assert |hash| == |Lower(hash)|;
  }

  lemma DoneIsVouched(o: Options, t: Trace, p: Poll)
    requires t.outcome == Continue && PollStep(o, t, p).outcome.Done?
    ensures Vouched(o, p, PollStep(o, t, p).outcome.settlement)
  {
    var f := PollStep(o, t, p).outcome.settlement;
    var receipt := AgreedReceipt(p.receipts).value.value;
    assert f.receipt == receipt;
    AgreedReceiptIsUnanimous(p.receipts);
    ReadBlockIsHead(p.canonical, receipt.blockHash);
    ReadBlockIsHead(p.finalized, f.finalizedHash);
    ReadBlockIsHead(p.finalBlock, receipt.blockHash);
    AgreedReceiptIsUnanimous(p.finalReceipts);
    assert Unanimous(p.finalReceipts, AgreedReceipt(p.finalReceipts).value.value);
  }

  /**
   * A returned settlement is a successful receipt carrying the watched calldata
   * whose block every provider called canonical before and after they agreed on
   * a finalized head at or above it, all within one poll.
   */
  lemma {:induction false} ReturnedSettlementIsFinal(o: Options, polls: seq<Poll>)
    requires Watch(o, polls).outcome.Done?
    ensures exists k :: 0 <= k < |polls| && Watch(o, polls[..k]).outcome == Continue
                        && Vouched(o, polls[k], Watch(o, polls).outcome.settlement)
  {
    var front := polls[..|polls| - 1];
    if Watch(o, front).outcome == Continue {
      DoneIsVouched(o, Watch(o, front), polls[|polls| - 1]);
      assert Vouched(o, polls[|polls| - 1], Watch(o, polls).outcome.settlement);
    } else {
      ReturnedSettlementIsFinal(o, front);
      var k :| 0 <= k < |front| && Watch(o, front[..k]).outcome == Continue
               && Vouched(o, front[k], Watch(o, front).outcome.settlement);
      assert front[..k] == polls[..k] && front[k] == polls[k];
    }
  }

  lemma MissingCounterMoves(o: Options, t: Trace, p: Poll)
    requires t.outcome == Continue && PollStep(o, t, p).outcome == Continue
    ensures PollStep(o, t, p).state.missingPolls
            <= if AgreedReceipt(p.receipts) == Ok(None) then t.state.missingPolls + 1 else 0
  {
    var receipt := AgreedReceipt(p.receipts);
    if receipt.value.Some? {
      PresentClearsMissing(o, t, receipt.value.value, p);
    }
  }

  lemma PresentClearsMissing(o: Options, t: Trace, receipt: Receipt, p: Poll)
    ensures PresentStep(o, t, receipt, p).state.missingPolls == 0
  {
    var seen := t.(state := t.state.(missingPolls := 0));
    CanonicalKeepsMissing(o, seen, receipt, p);
  }

  lemma CanonicalKeepsMissing(o: Options, seen: Trace, receipt: Receipt, p: Poll)
    ensures CanonicalStep(o, seen, receipt, p).state.missingPolls == seen.state.missingPolls
  {
  }

  /** The missing-poll counter never runs ahead of the polls that really missed the receipt in a row. */
  lemma {:induction false} MissingIsCounted(o: Options, polls: seq<Poll>)
    ensures Watch(o, polls).outcome == Continue ==> Watch(o, polls).state.missingPolls <= TrailingMissing(polls)
  {
    if polls != [] && Watch(o, polls).outcome == Continue {
      MissingIsCounted(o, polls[..|polls| - 1]);
      MissingCounterMoves(o, Watch(o, polls[..|polls| - 1]), polls[|polls| - 1]);
    }
  }

  lemma RetryBroadcastsLate(o: Options, t: Trace, p: Poll)
    requires t.outcome == Continue
    requires Broadcasts(RetryStep(o, t, p).events) > Broadcasts(t.events)
    ensures t.state.missingPolls >= o.missingLimit
    ensures ReadAgreedBlock(p.latest).Ok? && ReadAgreedBlock(p.latest).value.number < o.deadline
  {
    if ReadAgreedBlock(p.latest).Ok? {
      EmitOne(t.events, Alert(o.deadline - ReadAgreedBlock(p.latest).value.number));
    }
  }

  /** A poll that finds no receipt rebroadcasts only after the configured number of misses in a row, this one included. */
  lemma RebroadcastNeedsMisses(o: Options, polls: seq<Poll>, p: Poll)
    requires Watch(o, polls).outcome == Continue
    ensures AgreedReceipt(p.receipts) == Ok(None)
            && Broadcasts(PollStep(o, Watch(o, polls), p).events) > Broadcasts(Watch(o, polls).events) ==>
              && TrailingMissing(polls) + 1 >= o.missingLimit
              && ReadAgreedBlock(p.latest).Ok? && ReadAgreedBlock(p.latest).value.number < o.deadline
  {
    var t := Watch(o, polls);
    if AgreedReceipt(p.receipts) == Ok(None) && Broadcasts(PollStep(o, t, p).events) > Broadcasts(t.events) {
      MissingIsCounted(o, polls);
      WatchIsGood(o, polls);
      RetractLeavesNothing(o, t, p.retractedThrows);
      var retracted := RetractStep(t, p.retractedThrows);
      if retracted.outcome == Continue {
        RetryBroadcastsLate(o, CountMissing(retracted), p);
      }
    }
  }
}
