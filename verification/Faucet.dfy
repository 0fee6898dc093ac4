/**
 * The development faucet: every drip is reserved first, and a failing send
 * gives its reservation back at whatever later moment it fails.
 */
module Faucet {
  import opened Wrappers

  const HOUR := 3_600_000
  const MAX_TRACKED := 50_000

  datatype Config = Config(cooldown: nat, maxPerHour: nat)

  /** `live` falls when the reservation is rolled back. */
  datatype Reservation = Reservation(address: string, time: nat, live: bool)

  /**
   * `last` and `recent` are the service's fields. `made` remembers every
   * reservation in order, `open` those whose send has not come back.
   */
  datatype State = State(last: map<string, nat>, recent: seq<nat>, made: seq<Reservation>, open: set<nat>, clock: nat)

  datatype Refusal = CoolingDown | BudgetExhausted | Busy

  datatype Step = Drip(address: string, now: nat) | Sent(index: nat) | Failed(index: nat)

  const EMPTY := State(map[], [], [], {}, 0)

  // ----- The service

  function Above(times: seq<nat>, cutoff: int): seq<nat> {
    if times == [] then []
    else
      var front, time := Above(times[..|times| - 1], cutoff), times[|times| - 1];
      if time > cutoff then front + [time] else front
  }

  function PruneRecent(recent: seq<nat>, now: nat): seq<nat> {
    if recent != [] && recent[0] <= now - HOUR then Above(recent, now - HOUR) else recent
  }

  function PruneLast(c: Config, last: map<string, nat>, now: nat): map<string, nat> {
    if |last| > MAX_TRACKED / 2 then map k | k in last && now - last[k] < c.cooldown :: last[k] else last
  }

  function Check(c: Config, last: map<string, nat>, recent: seq<nat>, address: string, now: nat): Option<Refusal> {
    var prior := if address in last then last[address] else 0;
    if now - prior < c.cooldown then Some(CoolingDown)
    else if |recent| >= c.maxPerHour then Some(BudgetExhausted)
    else if |last| >= MAX_TRACKED then Some(Busy)
    else None
  }

  /** Drop the last entry with this value, if there is one. */
  function RemoveLast(times: seq<nat>, time: nat): seq<nat> {
    if times == [] then []
    else if times[|times| - 1] == time then times[..|times| - 1]
    else RemoveLast(times[..|times| - 1], time) + [times[|times| - 1]]
  }

  function Dripped(c: Config, s: State, address: string, now: nat): State {
    var last, recent := PruneLast(c, s.last, now), PruneRecent(s.recent, now);
    if Check(c, last, recent, address, now).Some? then State(last, recent, s.made, s.open, now)
    else
      State(last[address := now], recent + [now], s.made + [Reservation(address, now, true)],
            s.open + {|s.made|}, now)
  }

  function RolledBack(s: State, index: nat): State
    requires index < |s.made|
  {
    var r := s.made[index];
    s.(last := s.last - {r.address}, recent := RemoveLast(s.recent, r.time),
       made := s.made[index := r.(live := false)], open := s.open - {index})
  }

  function Next(c: Config, s: State, step: Step): Option<State> {
    match step
    case Drip(address, now) => if now >= s.clock then Some(Dripped(c, s, address, now)) else None
    case Sent(index) => if index in s.open then Some(s.(open := s.open - {index})) else None
    case Failed(index) =>
      if index in s.open && index < |s.made| then Some(RolledBack(s, index)) else None
  }

  function Run(c: Config, steps: seq<Step>): Option<State> {
    if steps == [] then Some(EMPTY)
    else
      var before := Run(c, steps[..|steps| - 1]);
      if before.None? then None else Next(c, before.value, steps[|steps| - 1])
  }

  /** The service's two maps, updated, rolled back and pruned in place. */
  class FaucetService {
    var last: map<string, nat>
    var recent: seq<nat>
    const c: Config

    constructor (c: Config)
      ensures this.c == c && last == map[] && recent == []
    {
      this.c := c;
      last, recent := map[], [];
    }

    method Prune(now: nat)
      modifies this
      ensures last == PruneLast(c, old(last), now) && recent == PruneRecent(old(recent), now)
    {
      if recent != [] && recent[0] <= now - HOUR {
        var kept: seq<nat> := [];
        for i := 0 to |recent|
          invariant recent == old(recent) && last == old(last)
          invariant kept == Above(recent[..i], now - HOUR)
        {
          assert recent[..i + 1][..i] == recent[..i];
          if recent[i] > now - HOUR {
            kept := kept + [recent[i]];
          }
        }
        assert recent[..|recent|] == recent;
        recent := kept;
      }
      if |last| > MAX_TRACKED / 2 {
        last := map k | k in last && now - last[k] < c.cooldown :: last[k];
      }
    }

    /** Up to the send: nothing is awaited between the check and the reservation. */
    method Reserve(address: string, now: nat) returns (refusal: Option<Refusal>)
      modifies this
      ensures refusal == Check(c, PruneLast(c, old(last), now), PruneRecent(old(recent), now), address, now)
      ensures refusal.Some? ==> last == PruneLast(c, old(last), now) && recent == PruneRecent(old(recent), now)
      ensures refusal.None? ==>
                last == PruneLast(c, old(last), now)[address := now] && recent == PruneRecent(old(recent), now) + [now]
    {
      Prune(now);
      refusal := Check(c, last, recent, address, now);
      if refusal.None? {
        last := last[address := now];
        recent := recent + [now];
      }
    }

    /** The send failed: release the reservation. */
    method RollBack(address: string, now: nat)
      modifies this
      ensures last == old(last) - {address} && recent == RemoveLast(old(recent), now)
    {
      last := last - {address};
      var i := |recent|;
      assert recent[..i] == recent && recent[i..] == [];
      while i > 0 && recent[i - 1] != now
        invariant 0 <= i <= |recent| && recent == old(recent) && last == old(last) - {address}
        invariant RemoveLast(recent, now) == RemoveLast(recent[..i], now) + recent[i..]
      {
        assert recent[..i][..i - 1] == recent[..i - 1];
        i := i - 1;
      }
      if i > 0 {
        assert recent[..i][..i - 1] == recent[..i - 1];
        recent := recent[..i - 1] + recent[i..];
      } else {
        assert recent[..i] == [] && recent[i..] == recent;
      }
    }
  }

  // ----- The hourly budget

  /** The times of the live reservations above a cutoff, in the order they were made. */
  function LiveAbove(made: seq<Reservation>, cutoff: int): seq<nat> {
    if made == [] then []
    else
      var front, r := LiveAbove(made[..|made| - 1], cutoff), made[|made| - 1];
      if r.live && r.time > cutoff then front + [r.time] else front
  }

  predicate Ordered(made: seq<Reservation>, clock: nat) {
    && (forall i, j :: 0 <= i <= j < |made| ==> made[i].time <= made[j].time)
    && (forall i :: 0 <= i < |made| ==> made[i].time <= clock)
  }

  predicate Sorted(times: seq<nat>) {
    forall i, j :: 0 <= i <= j < |times| ==> times[i] <= times[j]
  }

  lemma LivePush(front: seq<Reservation>, r: Reservation, cutoff: int)
    ensures LiveAbove(front + [r], cutoff)
            == if r.live && r.time > cutoff then LiveAbove(front, cutoff) + [r.time] else LiveAbove(front, cutoff)
  {
    assert (front + [r])[..|front|] == front;
  }

  lemma {:induction false} TimesAreOrdered(made: seq<Reservation>, clock: nat, cutoff: int)
    requires Ordered(made, clock)
    ensures var times := LiveAbove(made, cutoff);
            Sorted(times) && forall i :: 0 <= i < |times| ==> cutoff < times[i] <= clock
  {
    if made != [] {
      var front, r := made[..|made| - 1], made[|made| - 1];
      TimesAreOrdered(front, r.time, cutoff);
      assert made == front + [r];
      LivePush(front, r, cutoff);
    }
  }

  lemma {:induction false} AboveOfAbove(made: seq<Reservation>, low: int, high: int)
    requires low <= high
    ensures Above(LiveAbove(made, low), high) == LiveAbove(made, high)
  {
    if made != [] {
      AboveOfAbove(made[..|made| - 1], low, high);
      var times := LiveAbove(made, low);
      var r := made[|made| - 1];
      if r.live && r.time > low {
        assert times[..|times| - 1] == LiveAbove(made[..|made| - 1], low);
      }
    }
  }

  lemma {:induction false} AboveIsWhole(times: seq<nat>, cutoff: int)
    requires forall i :: 0 <= i < |times| ==> times[i] > cutoff
    ensures Above(times, cutoff) == times
  {
    if times != [] {
      AboveIsWhole(times[..|times| - 1], cutoff);
    }
  }

  lemma {:induction false} PruningIsExact(times: seq<nat>, now: nat)
    requires Sorted(times)
    ensures PruneRecent(times, now) == Above(times, now - HOUR)
  {
    if times != [] && times[0] > now - HOUR {
      AboveIsWhole(times, now - HOUR);
    }
  }

  lemma RemoveLastPush(times: seq<nat>, newest: nat, time: nat)
    ensures RemoveLast(times + [newest], time)
            == if newest == time then times else RemoveLast(times, time) + [newest]
  {
    assert (times + [newest])[..|times|] == times;
  }

  lemma {:induction false} RemovingAbsent(times: seq<nat>, time: nat)
    requires time !in times
    ensures RemoveLast(times, time) == times
  {
    if times != [] {
      RemovingAbsent(times[..|times| - 1], time);
    }
  }

  /** When the newest time recurs, taking the last of them off and putting it back changes nothing. */
  lemma {:induction false} HasLast(made: seq<Reservation>, index: nat, clock: nat, cutoff: int)
    requires Ordered(made, clock) && index < |made| && made[index].live && made[index].time > cutoff
    requires made[|made| - 1].time == made[index].time
    ensures var times := LiveAbove(made, cutoff);
            RemoveLast(times, made[index].time) + [made[index].time] == times
    decreases |made|
  {
    var front, r, time := made[..|made| - 1], made[|made| - 1], made[index].time;
    assert made == front + [r];
    LivePush(front, r, cutoff);
    if r.live {
      RemoveLastPush(LiveAbove(front, cutoff), r.time, time);
    } else {
      HasLast(front, index, clock, cutoff);
    }
  }

  /** Dropping the last of equal times from the record is dropping the one that failed. */
  lemma {:induction false} RollbackIsExact(made: seq<Reservation>, index: nat, clock: nat, cutoff: int)
    requires Ordered(made, clock) && index < |made| && made[index].live
    ensures LiveAbove(made[index := made[index].(live := false)], cutoff)
            == RemoveLast(LiveAbove(made, cutoff), made[index].time)
    decreases |made|
  {
    var front, r, dead := made[..|made| - 1], made[|made| - 1], made[index].(live := false);
    var times, time := LiveAbove(front, cutoff), made[index].time;
    assert made == front + [r];
    LivePush(front, r, cutoff);
    if index == |made| - 1 {
      assert made[index := dead] == front + [dead];
      LivePush(front, dead, cutoff);
      RollbackOfNewest(front, r, clock, cutoff);
    } else {
      assert made[index := dead] == front[index := dead] + [r];
      LivePush(front[index := dead], r, cutoff);
      RollbackIsExact(front, index, clock, cutoff);
      RemoveLastPush(times, r.time, time);
      if r.live && r.time > cutoff && r.time == time {
        HasLast(front, index, clock, cutoff);
      }
    }
  }

  lemma RollbackOfNewest(front: seq<Reservation>, r: Reservation, clock: nat, cutoff: int)
    requires Ordered(front + [r], clock) && r.live
    ensures RemoveLast(LiveAbove(front + [r], cutoff), r.time) == LiveAbove(front, cutoff)
  {
    LivePush(front, r, cutoff);
    RemoveLastPush(LiveAbove(front, cutoff), r.time, r.time);
    if r.time <= cutoff {
      assert Ordered(front, clock) by {
        assert forall i :: 0 <= i < |front| ==> front[i] == (front + [r])[i];
      }
      TimesAreOrdered(front, clock, cutoff);
      RemovingAbsent(LiveAbove(front, cutoff), r.time);
    }
  }

  predicate BudgetedAt(c: Config, made: seq<Reservation>, i: nat)
    requires i < |made|
  {
    |LiveAbove(made[..i + 1], made[i].time - HOUR)| <= c.maxPerHour
  }

  /** Within the hour before each reservation, live ones up to it keep the budget. */
  predicate Budgeted(c: Config, made: seq<Reservation>) {
    forall i :: 0 <= i < |made| ==> BudgetedAt(c, made, i)
  }

  /** Only the reservations up to it matter. */
  lemma BudgetedByPrefix(c: Config, made: seq<Reservation>, more: seq<Reservation>, i: nat)
    requires i < |made|
    ensures BudgetedAt(c, made + more, i) <==> BudgetedAt(c, made, i)
  {
    assert (made + more)[..i + 1] == made[..i + 1];
  }

  /** The service's record is the live reservations above some cutoff an hour or more back. */
  predicate BudgetInv(c: Config, s: State, cutoff: int) {
    && Ordered(s.made, s.clock)
    && cutoff <= s.clock - HOUR
    && s.recent == LiveAbove(s.made, cutoff)
    && Budgeted(c, s.made)
    && (forall i :: i in s.open ==> i < |s.made| && s.made[i].live)
  }

  lemma RemoveLastShrinks(times: seq<nat>, time: nat)
    ensures |RemoveLast(times, time)| <= |times|
  {
  }

  lemma RollbackKeepsBudget(c: Config, made: seq<Reservation>, index: nat, clock: nat)
    requires Ordered(made, clock) && Budgeted(c, made) && index < |made| && made[index].live
    ensures Budgeted(c, made[index := made[index].(live := false)])
  {
    var after := made[index := made[index].(live := false)];
    forall i | 0 <= i < |after| ensures BudgetedAt(c, after, i) {
      var before, since := made[..i + 1], made[i].time - HOUR;
      assert BudgetedAt(c, made, i);
      if index <= i {
        assert after[..i + 1] == before[index := before[index].(live := false)];
        RollbackIsExact(before, index, clock, since);
        RemoveLastShrinks(LiveAbove(before, since), made[index].time);
      } else {
        assert after[..i + 1] == before;
      }
    }
  }

  lemma PrunedRecord(c: Config, s: State, cutoff: int, now: nat)
    requires BudgetInv(c, s, cutoff) && now >= s.clock
    ensures PruneRecent(s.recent, now) == LiveAbove(s.made, now - HOUR)
  {
    TimesAreOrdered(s.made, s.clock, cutoff);
    PruningIsExact(s.recent, now);
    AboveOfAbove(s.made, cutoff, now - HOUR);
  }

  lemma PushKeepsOrder(made: seq<Reservation>, r: Reservation, clock: nat)
    requires Ordered(made, clock) && r.time >= clock
    ensures Ordered(made + [r], r.time)
  {
  }

  lemma PushKeepsBudget(c: Config, made: seq<Reservation>, r: Reservation)
    requires Budgeted(c, made) && |LiveAbove(made + [r], r.time - HOUR)| <= c.maxPerHour
    ensures Budgeted(c, made + [r])
  {
    var after := made + [r];
    forall i | 0 <= i < |after| ensures BudgetedAt(c, after, i) {
      if i < |made| {
        BudgetedByPrefix(c, made, [r], i);
      } else {
        assert after[..i + 1] == after;
      }
    }
  }

  lemma DripKeepsBudget(c: Config, s: State, cutoff: int, address: string, now: nat)
    requires BudgetInv(c, s, cutoff) && now >= s.clock
    ensures BudgetInv(c, Dripped(c, s, address, now), now - HOUR)
  {
    PrunedRecord(c, s, cutoff, now);
    var last, recent := PruneLast(c, s.last, now), PruneRecent(s.recent, now);
    if Check(c, last, recent, address, now).None? {
      ReservationKeepsBudget(c, s.made, Reservation(address, now, true), s.clock);
      DrippedRecord(c, s, address, now);
    } else {
      assert Ordered(s.made, now);
    }
  }

  lemma DrippedRecord(c: Config, s: State, address: string, now: nat)
    requires Check(c, PruneLast(c, s.last, now), PruneRecent(s.recent, now), address, now).None?
    ensures var after := Dripped(c, s, address, now);
            && after.made == s.made + [Reservation(address, now, true)] && after.recent == PruneRecent(s.recent, now) + [now]
            && after.open == s.open + {|s.made|} && after.clock == now
  {
  }

  lemma ReservationKeepsBudget(c: Config, made: seq<Reservation>, r: Reservation, clock: nat)
    requires Ordered(made, clock) && Budgeted(c, made) && r.live && r.time >= clock
    requires |LiveAbove(made, r.time - HOUR)| < c.maxPerHour
    ensures Ordered(made + [r], r.time) && Budgeted(c, made + [r])
    ensures LiveAbove(made + [r], r.time - HOUR) == LiveAbove(made, r.time - HOUR) + [r.time]
  {
    LivePush(made, r, r.time - HOUR);
    PushKeepsOrder(made, r, clock);
    PushKeepsBudget(c, made, r);
  }

  lemma FailureKeepsBudget(c: Config, s: State, cutoff: int, index: nat)
    requires BudgetInv(c, s, cutoff) && index in s.open && index < |s.made|
    ensures BudgetInv(c, RolledBack(s, index), cutoff)
  {
    RollbackIsExact(s.made, index, s.clock, cutoff);
    RollbackKeepsBudget(c, s.made, index, s.clock);
  }

  lemma SentKeepsBudget(c: Config, s: State, cutoff: int, index: nat)
    requires BudgetInv(c, s, cutoff)
    ensures BudgetInv(c, s.(open := s.open - {index}), cutoff)
  {
  }

  lemma NextKeepsBudget(c: Config, s: State, cutoff: int, step: Step) returns (after: int)
    requires BudgetInv(c, s, cutoff) && Next(c, s, step).Some?
    ensures BudgetInv(c, Next(c, s, step).value, after)
  {
    after := cutoff;
    match step
    case Drip(address, now) =>
      DripKeepsBudget(c, s, cutoff, address, now);
      after := now - HOUR;
    case Sent(index) => SentKeepsBudget(c, s, cutoff, index);
    case Failed(index) => FailureKeepsBudget(c, s, cutoff, index);
  }

  lemma {:induction false} RunKeepsBudget(c: Config, steps: seq<Step>) returns (cutoff: int)
    requires Run(c, steps).Some?
    ensures BudgetInv(c, Run(c, steps).value, cutoff)
  {
    if steps == [] {
      cutoff := -HOUR;
    } else {
      var before := RunKeepsBudget(c, steps[..|steps| - 1]);
      cutoff := NextKeepsBudget(c, Run(c, steps[..|steps| - 1]).value, before, steps[|steps| - 1]);
    }
  }

  /** Live reservations made after `from` and within an hour of it. */
  function InHour(made: seq<Reservation>, from: int): nat {
    if made == [] then 0
    else
      var r := made[|made| - 1];
      InHour(made[..|made| - 1], from) + if r.live && from < r.time <= from + HOUR then 1 else 0
  }

  lemma {:induction false} HourIsAbove(made: seq<Reservation>, from: int, since: int)
    requires since <= from
    ensures InHour(made, from) <= |LiveAbove(made, since)|
  {
    if made != [] {
      HourIsAbove(made[..|made| - 1], from, since);
      assert made == made[..|made| - 1] + [made[|made| - 1]];
      LivePush(made[..|made| - 1], made[|made| - 1], since);
    }
  }

  lemma {:induction false} HourIsBudgeted(c: Config, made: seq<Reservation>, from: int)
    requires Budgeted(c, made)
    ensures InHour(made, from) <= c.maxPerHour
  {
    if made != [] {
      var front, r := made[..|made| - 1], made[|made| - 1];
      if r.live && from < r.time <= from + HOUR {
        HourIsAbove(made, from, r.time - HOUR);
        assert made[..|made|] == made && BudgetedAt(c, made, |made| - 1);
      } else {
        forall i | 0 <= i < |front| ensures BudgetedAt(c, front, i) {
          BudgetedByPrefix(c, front, [r], i);
          assert made == front + [r] && BudgetedAt(c, made, i);
        }
        HourIsBudgeted(c, front, from);
      }
    }
  }

  /**
   * On a clock that does not go back, whatever sends are in flight and however
   * they fail: the reservations of any one hour that were not rolled back
   * number at most the hourly budget.
   */
  lemma EveryHourIsBudgeted(c: Config, steps: seq<Step>, from: int)
    requires Run(c, steps).Some?
    ensures InHour(Run(c, steps).value.made, from) <= c.maxPerHour
  {
    var cutoff := RunKeepsBudget(c, steps);
    HourIsBudgeted(c, Run(c, steps).value.made, from);
  }

  // ----- The cooldown of one address

  /** Live reservations of one address are a cooldown apart. */
  predicate Spaced(c: Config, made: seq<Reservation>) {
    forall i, j :: 0 <= i < j < |made| && made[i].live && made[j].live && made[i].address == made[j].address ==>
      made[j].time - made[i].time >= c.cooldown
  }

  /** The record holds every live reservation that has not cooled down. */
  predicate Remembered(c: Config, s: State) {
    forall i :: 0 <= i < |s.made| && s.made[i].live && s.clock - s.made[i].time < c.cooldown ==>
      s.made[i].address in s.last && s.last[s.made[i].address] >= s.made[i].time
  }

  /** No other live reservation of this one's address is still cooling down. */
  predicate OthersCooled(c: Config, s: State, index: nat)
    requires index < |s.made|
  {
    forall j :: 0 <= j < |s.made| && j != index && s.made[j].live && s.made[j].address == s.made[index].address ==>
      s.clock - s.made[j].time >= c.cooldown
  }

  /** A failed send forgets the address exactly when another live reservation of it is still cooling down. */
  lemma RollbackForgetsIff(c: Config, s: State, index: nat)
    requires Remembered(c, s) && index in s.open && index < |s.made|
    ensures Remembered(c, RolledBack(s, index)) <==> OthersCooled(c, s, index)
  {
    var after := RolledBack(s, index);
    if OthersCooled(c, s, index) {
      forall i | 0 <= i < |after.made| && after.made[i].live && after.clock - after.made[i].time < c.cooldown
        ensures after.made[i].address in after.last && after.last[after.made[i].address] >= after.made[i].time
      {
        assert i != index && s.made[i] == after.made[i];
      }
    }
    if Remembered(c, after) {
      forall j | 0 <= j < |s.made| && j != index && s.made[j].live && s.made[j].address == s.made[index].address
        ensures s.clock - s.made[j].time >= c.cooldown
      {
        assert after.made[j] == s.made[j];
      }
    }
  }

  predicate CooldownInv(c: Config, s: State) {
    Ordered(s.made, s.clock) && Spaced(c, s.made) && Remembered(c, s)
  }

  lemma DripKeepsCooldown(c: Config, s: State, address: string, now: nat)
    requires CooldownInv(c, s) && now >= s.clock
    ensures CooldownInv(c, Dripped(c, s, address, now))
  {
    var last := PruneLast(c, s.last, now);
    PruningRemembers(c, s, now);
    if Check(c, last, PruneRecent(s.recent, now), address, now).None? {
      var r := Reservation(address, now, true);
      PushKeepsOrder(s.made, r, s.clock);
      PushKeepsSpacing(c, s.made, last, r);
    }
  }

  /** The record holds every live reservation that has not cooled down by this moment. */
  predicate RemembersAt(c: Config, made: seq<Reservation>, last: map<string, nat>, now: nat) {
    forall i :: 0 <= i < |made| && made[i].live && now - made[i].time < c.cooldown ==>
      made[i].address in last && last[made[i].address] >= made[i].time
  }

  /** Pruning forgets only what has cooled down. */
  lemma PruningRemembers(c: Config, s: State, now: nat)
    requires Remembered(c, s) && now >= s.clock
    ensures RemembersAt(c, s.made, PruneLast(c, s.last, now), now)
  {
    forall i | 0 <= i < |s.made| && s.made[i].live && now - s.made[i].time < c.cooldown
      ensures s.made[i].address in PruneLast(c, s.last, now)
      ensures PruneLast(c, s.last, now)[s.made[i].address] >= s.made[i].time
    {
      assert s.clock - s.made[i].time < c.cooldown;
    }
  }

  lemma PushKeepsSpacing(c: Config, made: seq<Reservation>, last: map<string, nat>, r: Reservation)
    requires Spaced(c, made) && RemembersAt(c, made, last, r.time)
    requires r.time - (if r.address in last then last[r.address] else 0) >= c.cooldown
    requires forall i :: 0 <= i < |made| ==> made[i].time <= r.time
    ensures Spaced(c, made + [r]) && RemembersAt(c, made + [r], last[r.address := r.time], r.time)
  {
  }

  /** Each failure comes back before its address has been served again and is still cooling down. */
  predicate TimelyFailures(c: Config, steps: seq<Step>) {
    forall k :: 0 <= k < |steps| && steps[k].Failed? && Run(c, steps[..k]).Some?
                && steps[k].index < |Run(c, steps[..k]).value.made| ==>
      OthersCooled(c, Run(c, steps[..k]).value, steps[k].index)
  }

  lemma {:induction false} RunKeepsCooldown(c: Config, steps: seq<Step>)
    requires Run(c, steps).Some? && TimelyFailures(c, steps)
    ensures CooldownInv(c, Run(c, steps).value)
  {
    if steps != [] {
      var front, step := steps[..|steps| - 1], steps[|steps| - 1];
      forall k | 0 <= k < |front| && front[k].Failed? && Run(c, front[..k]).Some?
                 && front[k].index < |Run(c, front[..k]).value.made|
        ensures OthersCooled(c, Run(c, front[..k]).value, front[k].index)
      {
        assert front[..k] == steps[..k];
      }
      RunKeepsCooldown(c, front);
      var before := Run(c, front).value;
      match step
      case Drip(address, now) => DripKeepsCooldown(c, before, address, now);
      case Sent(index) =>
      case Failed(index) =>
        assert steps[..|steps| - 1] == front;
        RollbackForgetsIff(c, before, index);
    }
  }

  /** While failures come back in time, live reservations of one address are a cooldown apart. */
  lemma CooldownHolds(c: Config, steps: seq<Step>)
    requires Run(c, steps).Some? && TimelyFailures(c, steps)
    ensures Spaced(c, Run(c, steps).value.made)
  {
    RunKeepsCooldown(c, steps);
  }

  lemma RunPush(c: Config, steps: seq<Step>, step: Step)
    requires Run(c, steps).Some?
    ensures Run(c, steps + [step]) == Next(c, Run(c, steps).value, step)
  {
    assert (steps + [step])[..|steps|] == steps;
  }

  /** A drip that finds the address cooled, or forgotten, and room in both records. */
  lemma DripIsAccepted(c: Config, s: State, address: string, now: nat)
    requires |s.last| < MAX_TRACKED / 2 && |s.recent| < c.maxPerHour
    requires now - (if address in s.last then s.last[address] else 0) >= c.cooldown
    ensures var after := Dripped(c, s, address, now);
            && after.made == s.made + [Reservation(address, now, true)] && after.last == s.last[address := now]
            && |after.recent| <= |s.recent| + 1 && after.open == s.open + {|s.made|} && after.clock == now
  {
    AboveShrinks(s.recent, now - HOUR);
  }

  lemma AboveShrinks(times: seq<nat>, cutoff: int)
    ensures |Above(times, cutoff)| <= |times|
  {
  }

  /** Nothing is reserved before one cooldown has passed since the beginning of time. */
  lemma {:induction false} ReservedLate(c: Config, steps: seq<Step>)
    requires Run(c, steps).Some?
    ensures forall r :: r in Run(c, steps).value.made ==> r.time >= c.cooldown
  {
    if steps != [] {
      ReservedLate(c, steps[..|steps| - 1]);
      NextIsLate(c, Run(c, steps[..|steps| - 1]).value, steps[|steps| - 1]);
    }
  }

  lemma NextIsLate(c: Config, s: State, step: Step)
    requires Next(c, s, step).Some? && forall r :: r in s.made ==> r.time >= c.cooldown
    ensures forall r :: r in Next(c, s, step).value.made ==> r.time >= c.cooldown
  {
  }

  /** Some drip from here on puts two live reservations of one address less than a cooldown apart. */
  ghost predicate NextDripCanBreak(c: Config, s: State) {
    exists address: string, now: nat :: now >= s.clock && !Spaced(c, Dripped(c, s, address, now).made)
  }

  lemma ForgottenCanBreak(c: Config, s: State, index: nat, other: nat)
    requires Ordered(s.made, s.clock) && index < |s.made| && other < |s.made| && other != index
    requires s.made[other].live && s.made[other].address == s.made[index].address
    requires s.clock - s.made[other].time < c.cooldown <= s.clock
    requires |RolledBack(s, index).last| < MAX_TRACKED / 2 && |RolledBack(s, index).recent| < c.maxPerHour
    ensures NextDripCanBreak(c, RolledBack(s, index))
  {
    var after, address := RolledBack(s, index), s.made[index].address;
    DripIsAccepted(c, after, address, s.clock);
    var made := Dripped(c, after, address, s.clock).made;
    assert made[other] == s.made[other] && made[|s.made|] == Reservation(address, s.clock, true);
    assert !Spaced(c, made);
  }

  /**
   * Up to a failure that comes back while both records have room, live
   * reservations are a cooldown apart; the next drip can break that if and only
   * if another live reservation of the failed one's address is still cooling.
   */
  lemma FailureBreaksCooldownIff(c: Config, steps: seq<Step>, index: nat)
    requires Run(c, steps).Some? && TimelyFailures(c, steps)
    requires var s := Run(c, steps).value;
             && index in s.open && index < |s.made|
             && |RolledBack(s, index).last| < MAX_TRACKED / 2 && |RolledBack(s, index).recent| < c.maxPerHour
    ensures var s := Run(c, steps).value;
            NextDripCanBreak(c, RolledBack(s, index)) <==> !OthersCooled(c, s, index)
  {
    var s := Run(c, steps).value;
    var after := RolledBack(s, index);
    RunKeepsCooldown(c, steps);
    if OthersCooled(c, s, index) {
      RollbackForgetsIff(c, s, index);
      forall address: string, now: nat | now >= after.clock
        ensures Spaced(c, Dripped(c, after, address, now).made)
      {
        DripKeepsCooldown(c, after, address, now);
      }
    } else {
      ReservedLate(c, steps);
      var other :| 0 <= other < |s.made| && other != index && s.made[other].live
                   && s.made[other].address == s.made[index].address && s.clock - s.made[other].time < c.cooldown;
      ForgottenCanBreak(c, s, index, other);
    }
  }

  lemma SizeOf(address: string, time: nat)
    ensures |map[address := time]| == 1
  {
    assert map[address := time].Keys == {address};
  }

  lemma ServedOnce(c: Config, address: string) returns (s: State)
    requires c.cooldown > 1 && c.maxPerHour >= 3
    ensures Run(c, [Drip(address, c.cooldown)]) == Some(s)
    ensures s.made == [Reservation(address, c.cooldown, true)] && s.last == map[address := c.cooldown]
    ensures |s.recent| <= 1 && s.open == {0} && s.clock == c.cooldown
  {
    s := Dripped(c, EMPTY, address, c.cooldown);
    DripIsAccepted(c, EMPTY, address, c.cooldown);
    RunPush(c, [], Drip(address, c.cooldown));
    assert [] + [Drip(address, c.cooldown)] == [Drip(address, c.cooldown)];
  }

  /** A second drip after the cooldown, the first still in flight. */
  lemma ServedTwice(c: Config, address: string) returns (s: State)
    requires c.cooldown > 1 && c.maxPerHour >= 3
    ensures Run(c, [Drip(address, c.cooldown), Drip(address, 2 * c.cooldown)]) == Some(s)
    ensures s.made == [Reservation(address, c.cooldown, true), Reservation(address, 2 * c.cooldown, true)]
    ensures s.last == map[address := 2 * c.cooldown] && |s.recent| <= 2 && s.open == {0, 1} && s.clock == 2 * c.cooldown
  {
    var t := c.cooldown;
    var s1 := ServedOnce(c, address);
    SizeOf(address, t);
    s := Dripped(c, s1, address, 2 * t);
    DripIsAccepted(c, s1, address, 2 * t);
    RunPush(c, [Drip(address, t)], Drip(address, 2 * t));
    assert [Drip(address, t)] + [Drip(address, 2 * t)] == [Drip(address, t), Drip(address, 2 * t)];
  }

  /** The first send fails now, and takes the second's record with it. */
  lemma FailedLate(c: Config, address: string) returns (s: State)
    requires c.cooldown > 1 && c.maxPerHour >= 3
    ensures Run(c, [Drip(address, c.cooldown), Drip(address, 2 * c.cooldown), Failed(0)]) == Some(s)
    ensures s.made == [Reservation(address, c.cooldown, false), Reservation(address, 2 * c.cooldown, true)]
    ensures s.last == map[] && |s.recent| <= 2 && s.clock == 2 * c.cooldown
  {
    var t := c.cooldown;
    var s2 := ServedTwice(c, address);
    s := RolledBack(s2, 0);
    RemoveLastShrinks(s2.recent, t);
    var steps := [Drip(address, t), Drip(address, 2 * t)];
    RunPush(c, steps, Failed(0));
    assert steps + [Failed(0)] == [Drip(address, t), Drip(address, 2 * t), Failed(0)];
  }

  lemma TicksApart(c: Config, address: string, made: seq<Reservation>)
    requires c.cooldown > 1 && |made| == 3
    requires made[1] == Reservation(address, 2 * c.cooldown, true)
    requires made[2] == Reservation(address, 2 * c.cooldown + 1, true)
    ensures !Spaced(c, made)
  {
    assert made[2].time - made[1].time < c.cooldown;
  }

  lemma ServedAgain(c: Config, address: string, s: State) returns (after: State)
    requires c.cooldown > 1 && c.maxPerHour >= 3
    requires s.made == [Reservation(address, c.cooldown, false), Reservation(address, 2 * c.cooldown, true)]
    requires s.last == map[] && |s.recent| <= 2 && s.clock == 2 * c.cooldown
    ensures Next(c, s, Drip(address, 2 * c.cooldown + 1)) == Some(after) && !Spaced(c, after.made)
  {
    after := Dripped(c, s, address, 2 * c.cooldown + 1);
    DripIsAccepted(c, s, address, 2 * c.cooldown + 1);
    TicksApart(c, address, after.made);
  }

  /** A send that fails after its address was served again releases the newer reservation: two drips, one tick apart. */
  lemma LateFailureBreaksCooldown(c: Config, address: string) returns (front: seq<Step>, last: Step)
    requires c.cooldown > 1 && c.maxPerHour >= 3
    ensures front == [Drip(address, c.cooldown), Drip(address, 2 * c.cooldown), Failed(0)]
    ensures last == Drip(address, 2 * c.cooldown + 1)
    ensures Run(c, front + [last]).Some? && !Spaced(c, Run(c, front + [last]).value.made)
  {
    front, last := [Drip(address, c.cooldown), Drip(address, 2 * c.cooldown), Failed(0)], Drip(address, 2 * c.cooldown + 1);
    var s3 := FailedLate(c, address);
    var s4 := ServedAgain(c, address, s3);
    RunPush(c, front, last);
  }
}
