/**
 * The promise chain that serialises one room's admission submissions. Each
 * arrival waits for the tail left by the arrival before it, and its own tail
 * settles once that one has and its work is over.
 */
module SubmissionChain {
  import opened Wrappers

  datatype Phase = Waiting | Running | Over

  /** `prior` is the ticket whose tail this one awaits; None is an already settled promise. */
  datatype Ticket = Ticket(prior: Option<nat>, phase: Phase)

  /** `serial` is the room's entry in the chain map; `started` remembers the order in which works began. */
  datatype Chain = Chain(tickets: seq<Ticket>, serial: Option<nat>, started: seq<nat>)

  datatype Step = Arrive | Start(ticket: nat) | Finish(ticket: nat)

  const EMPTY := Chain([], None, [])

  /** Whether every link behind this ticket is over. */
  predicate TailSettled(tickets: seq<Ticket>, ticket: nat)
    requires ticket < |tickets|
  {
    && tickets[ticket].phase == Over
    && (tickets[ticket].prior.None?
        || (tickets[ticket].prior.value < ticket && TailSettled(tickets, tickets[ticket].prior.value)))
  }

  predicate MayStart(c: Chain, ticket: nat) {
    && ticket < |c.tickets| && c.tickets[ticket].phase == Waiting
    && (c.tickets[ticket].prior.None?
        || (c.tickets[ticket].prior.value < ticket && TailSettled(c.tickets, c.tickets[ticket].prior.value)))
  }

  function Arrived(c: Chain): Chain {
    c.(tickets := c.tickets + [Ticket(c.serial, Waiting)], serial := Some(|c.tickets|))
  }

  function Started(c: Chain, ticket: nat): Chain
    requires ticket < |c.tickets|
  {
    c.(tickets := c.tickets[ticket := c.tickets[ticket].(phase := Running)], started := c.started + [ticket])
  }

  /** Release the tail, and clear the map only if nobody has chained behind it. */
  function Finished(c: Chain, ticket: nat): Chain
    requires ticket < |c.tickets|
  {
    c.(tickets := c.tickets[ticket := c.tickets[ticket].(phase := Over)],
       serial := if c.serial == Some(ticket) then None else c.serial)
  }

  function Next(c: Chain, step: Step): Option<Chain> {
    match step
    case Arrive => Some(Arrived(c))
    case Start(ticket) => if MayStart(c, ticket) then Some(Started(c, ticket)) else None
    case Finish(ticket) =>
      if ticket < |c.tickets| && c.tickets[ticket].phase == Running then Some(Finished(c, ticket)) else None
  }

  function Run(c: Chain, steps: seq<Step>): Option<Chain> {
    if steps == [] then Some(c)
    else
      var before := Run(c, steps[..|steps| - 1]);
      if before.None? then None else Next(before.value, steps[|steps| - 1])
  }

  /** The submitting service's side of the chain. */
  class Gate {
    var tickets: seq<Ticket>
    var serial: Option<nat>
    var started: seq<nat>

    ghost function View(): Chain
      reads this
    {
      Chain(tickets, serial, started)
    }

    constructor ()
      ensures View() == EMPTY
    {
      tickets, serial, started := [], None, [];
    }

    method Enter() returns (ticket: nat)
      modifies this
      ensures View() == Arrived(old(View()))
      ensures ticket == |old(tickets)|
    {
      ticket := |tickets|;
      tickets := tickets + [Ticket(serial, Waiting)];
      serial := Some(ticket);
    }

    /** The awaited tail has settled. */
    method Begin(ticket: nat)
      requires MayStart(View(), ticket)
      modifies this
      ensures View() == Started(old(View()), ticket)
    {
      tickets := tickets[ticket := tickets[ticket].(phase := Running)];
      started := started + [ticket];
    }

    method Leave(ticket: nat)
      requires ticket < |tickets| && tickets[ticket].phase == Running
      modifies this
      ensures View() == Finished(old(View()), ticket)
    {
      tickets := tickets[ticket := tickets[ticket].(phase := Over)];
      if serial == Some(ticket) {
        serial := None;
      }
    }
  }

  // ----- What every run keeps

  /**
   * The first `over` tickets are over, the next may be running, all later ones
   * wait, each behind its predecessor or behind nothing still unfinished.
   */
  ghost predicate Ordered(c: Chain, over: nat) {
    && over <= |c.tickets|
    && (forall i :: 0 <= i < |c.tickets| ==> (c.tickets[i].phase == Over <==> i < over))
    && (forall i :: 0 <= i < |c.tickets| && c.tickets[i].phase == Running ==> i == over)
    && (forall i :: 0 <= i < |c.tickets| && c.tickets[i].prior.Some? ==> c.tickets[i].prior == Some(i - 1))
    && (forall i :: over < i < |c.tickets| ==> c.tickets[i].prior == Some(i - 1))
    && c.serial == (if over == |c.tickets| then None else Some(|c.tickets| - 1))
    && |c.started| == over + (if over < |c.tickets| && c.tickets[over].phase == Running then 1 else 0)
    && (forall i :: 0 <= i < |c.started| ==> c.started[i] == i)
  }

  lemma {:induction false} SettledTails(c: Chain, over: nat, ticket: nat)
    requires Ordered(c, over) && ticket < |c.tickets|
    ensures TailSettled(c.tickets, ticket) <==> ticket < over
  {
    if c.tickets[ticket].prior.Some? {
      assert c.tickets[ticket].prior == Some(ticket - 1);
      SettledTails(c, over, ticket - 1);
    }
  }

  /** Exactly the oldest unfinished ticket, when it waits, may begin. */
  lemma OldestMayStart(c: Chain, over: nat, ticket: nat)
    requires Ordered(c, over)
    ensures MayStart(c, ticket) <==> ticket == over < |c.tickets| && c.tickets[ticket].phase == Waiting
  {
    if ticket < |c.tickets| && c.tickets[ticket].prior.Some? {
      assert c.tickets[ticket].prior == Some(ticket - 1);
      SettledTails(c, over, ticket - 1);
    }
  }

  lemma NextKeepsOrder(c: Chain, over: nat, step: Step) returns (after: nat)
    requires Ordered(c, over) && Next(c, step).Some?
    ensures Ordered(Next(c, step).value, after)
  {
    match step
    case Arrive =>
      after := over;
    case Start(ticket) =>
      OldestMayStart(c, over, ticket);
      after := over;
    case Finish(ticket) =>
      after := over + 1;
  }

  lemma {:induction false} RunKeepsOrder(steps: seq<Step>) returns (over: nat)
    requires Run(EMPTY, steps).Some?
    ensures Ordered(Run(EMPTY, steps).value, over)
  {
    if steps == [] {
      over := 0;
    } else {
      var before := RunKeepsOrder(steps[..|steps| - 1]);
      over := NextKeepsOrder(Run(EMPTY, steps[..|steps| - 1]).value, before, steps[|steps| - 1]);
    }
  }

  predicate IsRunning(c: Chain, ticket: nat) {
    ticket < |c.tickets| && c.tickets[ticket].phase == Running
  }

  /** Submissions of one room never overlap and begin in the order in which they arrived. */
  lemma OneAtATimeInOrder(steps: seq<Step>)
    requires Run(EMPTY, steps).Some?
    ensures var c := Run(EMPTY, steps).value;
            && (forall i, j :: IsRunning(c, i) && IsRunning(c, j) ==> i == j)
            && (forall i :: 0 <= i < |c.started| ==> c.started[i] == i)
            && (forall i, j :: 0 <= i < j < |c.tickets| && c.tickets[j].phase != Waiting ==> c.tickets[i].phase == Over)
  {
    var over := RunKeepsOrder(steps);
  }

  /** No arrival is stranded: with nothing running, the oldest waiting submission may begin and no other may. */
  lemma NobodyIsStranded(steps: seq<Step>, ticket: nat)
    requires Run(EMPTY, steps).Some?
    requires ticket < |Run(EMPTY, steps).value.tickets| && Run(EMPTY, steps).value.tickets[ticket].phase == Waiting
    requires forall i :: 0 <= i < |Run(EMPTY, steps).value.tickets| ==> Run(EMPTY, steps).value.tickets[i].phase != Running
    ensures MayStart(Run(EMPTY, steps).value, ticket)
            <==> forall i :: 0 <= i < ticket ==> Run(EMPTY, steps).value.tickets[i].phase == Over
  {
    var over := RunKeepsOrder(steps);
    OldestMayStart(Run(EMPTY, steps).value, over, ticket);
  }

  /** The map entry goes away exactly when nobody holds or awaits the chain, so it cannot leak. */
  lemma MapEntryIsTight(steps: seq<Step>)
    requires Run(EMPTY, steps).Some?
    ensures var c := Run(EMPTY, steps).value;
            c.serial.None? <==> forall i :: 0 <= i < |c.tickets| ==> c.tickets[i].phase == Over
  {
    var over := RunKeepsOrder(steps);
    var c := Run(EMPTY, steps).value;
    if over < |c.tickets| {
      assert c.tickets[over].phase != Over;
    }
  }
}
