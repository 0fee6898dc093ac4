/**
 * The single proving slot: a first-come queue in front of one GPU, driven by
 * callers that may report slowly, fail, or never come back.
 *
 * Each asynchronous call is cut at its awaits into
 * arriving, finishing the queue report, resuming when released, and finishing.
 */
module ProvingSlot {
  import opened Wrappers

  /** Where a caller stands: its report is out, it waits for its gate, it works, or it is done. */
  datatype Caller = Reporting | Waiting | Working | Finished

  /**
   * `queue` holds arrival numbers. `started` and `finished` remember the order
   * in which works began and ended.
   */
  datatype Slot = Slot(
    queue: seq<nat>,
    running: bool,
    released: set<nat>,
    callers: seq<Caller>,
    started: seq<nat>,
    finished: seq<nat>)

  datatype Step = Arrive(reports: bool) | Reported(caller: nat) | Resume(caller: nat) | Finish(caller: nat)

  const EMPTY := Slot([], false, {}, [], [], [])

  function IndexOf(queue: seq<nat>, caller: nat): (r: Option<nat>)
    ensures r.Some? ==> r.value < |queue| && queue[r.value] == caller
    ensures r.None? ==> caller !in queue
  {
    if queue == [] then None
    else if queue[0] == caller then Some(0)
    else
      var rest := IndexOf(queue[1..], caller);
      assert forall x :: x in queue ==> x == queue[0] || x in queue[1..];
      if rest.None? then None else Some(rest.value + 1)
  }

  function Without(queue: seq<nat>, caller: nat): seq<nat> {
    var index := IndexOf(queue, caller);
    if index.None? then queue else queue[..index.value] + queue[index.value + 1..]
  }

  function ReleaseHead(released: set<nat>, queue: seq<nat>): set<nat> {
    if queue == [] then released else released + {queue[0]}
  }

  /** Join the queue; a caller that finds the slot free starts at once, without an await. */
  function Arrived(s: Slot, reports: bool): Slot {
    var caller := |s.callers|;
    var queue := s.queue + [caller];
    if s.running || queue[0] != caller then
      s.(queue := queue, callers := s.callers + [if reports then Reporting else Waiting])
    else
      s.(queue := queue, callers := s.callers + [Working], running := true, started := s.started + [caller])
  }

  function Resumed(s: Slot, caller: nat): Slot
    requires caller < |s.callers|
  {
    s.(callers := s.callers[caller := Working], running := true, started := s.started + [caller])
  }

  /** Leave the queue and hand the slot to whoever is first in it now. */
  function Completed(s: Slot, caller: nat): Slot
    requires caller < |s.callers|
  {
    var queue := Without(s.queue, caller);
    s.(queue := queue, running := false, released := ReleaseHead(s.released, queue),
       callers := s.callers[caller := Finished], finished := s.finished + [caller])
  }

  function Next(s: Slot, step: Step): Option<Slot> {
    match step
    case Arrive(reports) => Some(Arrived(s, reports))
    case Reported(caller) =>
      if caller < |s.callers| && s.callers[caller] == Reporting
      then Some(s.(callers := s.callers[caller := Waiting])) else None
    case Resume(caller) =>
      if caller < |s.callers| && s.callers[caller] == Waiting && caller in s.released
      then Some(Resumed(s, caller)) else None
    case Finish(caller) =>
      if caller < |s.callers| && s.callers[caller] == Working then Some(Completed(s, caller)) else None
  }

  function Run(s: Slot, steps: seq<Step>): Option<Slot> {
    if steps == [] then Some(s)
    else
      var before := Run(s, steps[..|steps| - 1]);
      if before.None? then None else Next(before.value, steps[|steps| - 1])
  }

  /** The class whose fields the callers share. */
  class Queue {
    var queue: seq<nat>
    var running: bool
    var released: set<nat>
    var callers: seq<Caller>
    var started: seq<nat>
    var finished: seq<nat>

    ghost function View(): Slot
      reads this
    {
      Slot(queue, running, released, callers, started, finished)
    }

    constructor ()
      ensures View() == EMPTY
    {
      queue, running, released, callers, started, finished := [], false, {}, [], [], [];
    }

    /** Up to the first await: the caller's number and, if it must wait, the position it reports. */
    method Arrive(reports: bool) returns (caller: nat, position: Option<nat>)
      modifies this
      ensures View() == Arrived(old(View()), reports)
      ensures caller == |old(callers)|
      ensures position.Some? <==> callers[caller] != Working
      ensures position.Some? ==> position == IndexOf(queue, caller)
    {
      caller := |callers|;
      queue := queue + [caller];
      if running || queue[0] != caller {
        callers := callers + [if reports then Reporting else Waiting];
        position := IndexOf(queue, caller);
      } else {
        callers := callers + [Working];
        running := true;
        started := started + [caller];
        position := None;
      }
    }

    /** The report settled or threw; either way the caller goes on to its gate. */
    method Reported(caller: nat)
      requires caller < |callers| && callers[caller] == Reporting
      modifies this`callers
      ensures View() == old(View()).(callers := old(callers)[caller := Waiting])
    {
      callers := callers[caller := Waiting];
    }

    method Resume(caller: nat)
      requires caller < |callers| && callers[caller] == Waiting && caller in released
      modifies this`running, this`callers, this`started
      ensures View() == Resumed(old(View()), caller)
    {
      running := true;
      callers := callers[caller := Working];
      started := started + [caller];
    }

    /** The work returned or threw. */
    method Finish(caller: nat)
      requires caller < |callers| && callers[caller] == Working
      modifies this
      ensures View() == Completed(old(View()), caller)
    {
      running := false;
      var index := IndexOf(queue, caller);
      if index.Some? {
        queue := queue[..index.value] + queue[index.value + 1..];
      }
      if queue != [] {
        released := released + {queue[0]};
      }
      callers := callers[caller := Finished];
      finished := finished + [caller];
    }
  }

  // ----- Invariant

  function Range(lo: nat, hi: nat): (r: seq<nat>)
    requires lo <= hi
    ensures |r| == hi - lo && forall i :: 0 <= i < |r| ==> r[i] == lo + i
  {
    seq(hi - lo, i requires 0 <= i < hi - lo => lo + i)
  }

  /**
   * Callers finish, start and wait strictly in arrival order; the slot is held
   * by the head or is the head's for the taking.
   */
  predicate Inv(s: Slot) {
    var done, all := |s.finished|, |s.callers|;
    && done <= all
    && s.finished == Range(0, done)
    && s.queue == Range(done, all)
    && s.started == Range(0, if s.running then done + 1 else done) && (s.running ==> done < all)
    && (forall c :: 0 <= c < done ==> s.callers[c] == Finished)
    && (done < all ==>
          if s.running then s.callers[done] == Working
          else (s.callers[done] == Reporting || s.callers[done] == Waiting) && done in s.released)
    && (forall c :: done < c < all ==> (s.callers[c] == Reporting || s.callers[c] == Waiting) && c !in s.released)
    && (forall c :: c in s.released ==> c < all)
  }

  lemma ArriveKeepsInv(s: Slot, reports: bool)
    requires Inv(s)
    ensures Inv(Arrived(s, reports))
  {
    assert Arrived(s, reports).queue == Range(|s.finished|, |s.callers| + 1);
  }

  lemma ResumeKeepsInv(s: Slot, caller: nat)
    requires Inv(s) && caller < |s.callers| && s.callers[caller] == Waiting && caller in s.released
    ensures Inv(Resumed(s, caller))
  {
    assert Resumed(s, caller).started == Range(0, |s.finished| + 1);
  }

  lemma FinishKeepsInv(s: Slot, caller: nat)
    requires Inv(s) && caller < |s.callers| && s.callers[caller] == Working
    ensures Inv(Completed(s, caller))
  {
    assert caller == |s.finished| && s.queue[0] == caller;
    assert Completed(s, caller).queue == Range(|s.finished| + 1, |s.callers|);
    assert Completed(s, caller).finished == Range(0, |s.finished| + 1);
  }

  lemma NextKeepsInv(s: Slot, step: Step)
    requires Inv(s) && Next(s, step).Some?
    ensures Inv(Next(s, step).value)
  {
    match step
    case Arrive(reports) => ArriveKeepsInv(s, reports);
    case Reported(_) =>
    case Resume(caller) => ResumeKeepsInv(s, caller);
    case Finish(caller) => FinishKeepsInv(s, caller);
  }

  lemma {:induction false} RunKeepsInv(steps: seq<Step>)
    requires Run(EMPTY, steps).Some?
    ensures Inv(Run(EMPTY, steps).value)
  {
    if steps != [] {
      RunKeepsInv(steps[..|steps| - 1]);
      NextKeepsInv(Run(EMPTY, steps[..|steps| - 1]).value, steps[|steps| - 1]);
    }
  }

  // ----- Guarantees

  predicate Works(s: Slot, caller: nat) {
    caller < |s.callers| && s.callers[caller] == Working
  }

  lemma OnlyHeadWorks(s: Slot, caller: nat)
    requires Inv(s)
    ensures Works(s, caller) <==> s.running && s.queue[0] == caller
  {
    if s.running {
      assert s.queue[0] == |s.finished|;
    }
  }

  /** Under every interleaving at most one work runs, it is the head's, and works start and end in arrival order. */
  lemma OneWorkInArrivalOrder(steps: seq<Step>)
    requires Run(EMPTY, steps).Some?
    ensures var s := Run(EMPTY, steps).value;
            && (s.running ==> s.queue != [])
            && (forall c: nat :: Works(s, c) <==> s.running && s.queue[0] == c)
            && (forall i :: 0 <= i < |s.started| ==> s.started[i] == i)
            && s.finished + s.queue == Range(0, |s.callers|)
  {
    RunKeepsInv(steps);
    var s := Run(EMPTY, steps).value;
    forall c: nat
      ensures Works(s, c) <==> s.running && s.queue[0] == c
    {
      OnlyHeadWorks(s, c);
    }
    assert s.finished + s.queue == Range(0, |s.callers|);
  }

  /** The step the head takes next, whatever everybody else does. */
  function HeadStep(s: Slot): Step
    requires Inv(s) && s.queue != []
  {
    var head := s.queue[0];
    match s.callers[head]
    case Reporting => Reported(head)
    case Waiting => Resume(head)
    case _ => Finish(head)
  }

  /** No entry is stranded: with a queue there is always a step of the head itself to take. */
  lemma HeadCanMove(steps: seq<Step>)
    requires Run(EMPTY, steps).Some?
    ensures var s := Run(EMPTY, steps).value;
            Inv(s) && (s.queue != [] ==> Next(s, HeadStep(s)).Some? && (!s.running ==> s.queue[0] in s.released))
  {
    RunKeepsInv(steps);
  }

  function Ahead(s: Slot, caller: nat): int {
    caller - |s.finished|
  }

  function Stage(s: Slot): nat
    requires Inv(s) && s.queue != []
  {
    match s.callers[s.queue[0]]
    case Reporting => 2
    case Waiting => 1
    case _ => 0
  }

  /** How far a queued caller is from being the running head, in steps of successive heads. */
  function Distance(s: Slot, caller: nat): int
    requires Inv(s) && s.queue != []
  {
    3 * Ahead(s, caller) + Stage(s)
  }

  /**
   * A queued caller's place is exactly the works still to finish before it: each
   * finish moves it up by one, nothing moves it back, and each step of the head
   * brings it strictly closer.
   */
  lemma WaitIsBounded(s: Slot, step: Step, caller: nat)
    requires Inv(s) && caller in s.queue && Next(s, step).Some?
    ensures var t := Next(s, step).value;
            && Inv(t)
            && IndexOf(s.queue, caller) == Some(Ahead(s, caller))
            && Ahead(t, caller) == Ahead(s, caller) - (if step.Finish? then 1 else 0)
            && (caller in t.queue ==>
                 && Distance(t, caller) <= Distance(s, caller)
                 && (step == HeadStep(s) ==> Distance(t, caller) < Distance(s, caller)))
            && (caller !in t.queue ==> step == Finish(caller) && Distance(s, caller) == 0)
            && (Distance(s, caller) == 0 <==> s.callers[caller] == Working)
  {
    NextKeepsInv(s, step);
    RangeIndex(|s.finished|, |s.callers|, caller);
    var t := Next(s, step).value;
    if step.Finish? {
      assert s.queue[0] == |s.finished|;
      assert t.queue == Range(|s.finished| + 1, |s.callers|);
    }
  }

  lemma {:induction false} RangeIndex(lo: nat, hi: nat, c: nat)
    requires lo <= c < hi
    ensures IndexOf(Range(lo, hi), c) == Some(c - lo)
    decreases c - lo
  {
    if lo < c {
      RangeIndex(lo + 1, hi, c);
      assert Range(lo, hi)[1..] == Range(lo + 1, hi);
    }
  }

  /** Over any run, a caller still queued has moved up by exactly the works that finished. */
  lemma {:induction false} PlacesMatchFinishes(s: Slot, steps: seq<Step>, caller: nat)
    requires Inv(s) && caller in s.queue
    requires Run(s, steps).Some? && caller in Run(s, steps).value.queue
    ensures var t := Run(s, steps).value;
            && Inv(t)
            && IndexOf(s.queue, caller).value - IndexOf(t.queue, caller).value == |t.finished| - |s.finished|
  {
    RunFromKeepsInv(s, steps);
    var t := Run(s, steps).value;
    RangeIndex(|s.finished|, |s.callers|, caller);
    RangeIndex(|t.finished|, |t.callers|, caller);
  }

  lemma {:induction false} RunFromKeepsInv(s: Slot, steps: seq<Step>)
    requires Inv(s) && Run(s, steps).Some?
    ensures Inv(Run(s, steps).value)
  {
    if steps != [] {
      RunFromKeepsInv(s, steps[..|steps| - 1]);
      NextKeepsInv(Run(s, steps[..|steps| - 1]).value, steps[|steps| - 1]);
    }
  }

  /** Whoever waits is told at least one caller is ahead. */
  lemma ReportedPlaceIsPositive(s: Slot, reports: bool)
    requires Inv(s)
    ensures var t, caller := Arrived(s, reports), |s.callers|;
            && IndexOf(t.queue, caller) == Some(|s.queue|)
            && (t.callers[caller] != Working <==> |s.queue| >= 1)
  {
    var t := Arrived(s, reports);
    assert t.queue == Range(|s.finished|, |s.callers| + 1);
    RangeIndex(|s.finished|, |s.callers| + 1, |s.callers|);
  }

  // ----- What is published

  datatype Entry = Entry(caller: nat, position: nat)

  datatype Status = Status(active: Option<Entry>, waiting: seq<Entry>)

  function StatusOf(s: Slot): Status {
    var active := if s.running && s.queue != [] then Some(Entry(s.queue[0], 0)) else None;
    var skip := if active.Some? then 1 else 0;
    var rest := s.queue[skip..];
    Status(active, seq(|rest|, i requires 0 <= i < |rest| => Entry(rest[i], i + skip)))
  }

  /** The published queue names every unfinished caller once, at its place in arrival order, active only while it works. */
  lemma StatusIsTheQueue(s: Slot)
    requires Inv(s)
    ensures var status := StatusOf(s);
            var shown := (if status.active.Some? then [status.active.value] else []) + status.waiting;
            && |shown| == |s.callers| - |s.finished|
            && (forall i :: 0 <= i < |shown| ==> shown[i] == Entry(|s.finished| + i, i))
            && (status.active.Some? ==> Works(s, status.active.value.caller))
            && (status.active.None? ==> forall c: nat :: !Works(s, c))
  {
    forall c: nat
      ensures Works(s, c) <==> s.running && s.queue[0] == c
    {
      OnlyHeadWorks(s, c);
    }
  }
}
