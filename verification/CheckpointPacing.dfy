/** How far apart a room's attempts start, whatever happens to them. */
module CheckpointPacing {
  import opened Wrappers
  import opened RoomModel
  import opened RoomRuns
  import Guarantees = RoomGuarantees
  import Policy = CheckpointPolicy
  import State = CheckpointState
  import Replay

  const MINIMUM_INTERVAL_MS: int := 60_000

  /** An unforced start is due when it is checked and still due, for a reason, when its trigger is recorded. */
  lemma UnforcedStartHasReason(room: Room, planAt: int, triggerAt: int)
    requires State.AssertCheckpointable(room, false, planAt).Ok? && planAt <= triggerAt
    ensures var trigger := State.TriggerOf(room, false, triggerAt);
            && trigger != Policy.MANUAL && trigger != Policy.DEADLINE
            && (trigger == Policy.CAPACITY <==> Policy.CapacityFull(State.PlanInput(room, planAt, None)))
            && (room.checkpoints != [] && room.lastCheckpointAt.Some? && trigger != Policy.CAPACITY ==>
                 planAt - room.lastCheckpointAt.value >= MINIMUM_INTERVAL_MS)
  {
    var input := State.PlanInput(room, planAt, None);
    var later := State.SecondsSinceLastCheckpoint(room, triggerAt);
    assert State.PlanInput(room, triggerAt, None) == input.(secondsSinceLastCheckpoint := later);
    Policy.DueStaysDue(input, later);
    if room.checkpoints != [] && room.lastCheckpointAt.Some? && !Policy.CapacityFull(input) {
      if input.secondsSinceLastCheckpoint < Policy.CHECKPOINT_MINIMUM_INTERVAL_SECONDS {
        Policy.RateLimitYieldsOnlyToCapacityAndDeadline(input);
      }
      assert (planAt - room.lastCheckpointAt.value) as real >= 60_000.0;
    }
  }

  /** The history remembers when each attempt started, and only forced or full ones follow within a minute. */
  predicate Paced(room: Room) {
    && (room.checkpoints == [] ==> room.lastCheckpointAt.None?)
    && (room.checkpoints != [] ==> room.lastCheckpointAt == Some(room.checkpoints[|room.checkpoints| - 1].startedAt))
    && (forall i :: 1 <= i < |room.checkpoints| && room.checkpoints[i].trigger !in {Policy.MANUAL, Policy.CAPACITY} ==>
          room.checkpoints[i].startedAt - room.checkpoints[i - 1].startedAt >= MINIMUM_INTERVAL_MS)
  }

  /** Attempts end in place: their starts and triggers never change. */
  predicate SameStarts(before: Room, after: Room) {
    && after.lastCheckpointAt == before.lastCheckpointAt
    && |after.checkpoints| == |before.checkpoints|
    && forall i :: 0 <= i < |after.checkpoints| ==>
         && after.checkpoints[i].startedAt == before.checkpoints[i].startedAt
         && after.checkpoints[i].trigger == before.checkpoints[i].trigger
  }

  lemma StartKeepsPaced(room: Room, force: bool, planAt: int, triggerAt: int, at: int)
    requires Paced(room) && State.AssertCheckpointable(room, force, planAt).Ok?
    requires planAt <= triggerAt <= at
    ensures Paced(State.Started(room, Pending(room.actions), State.TriggerOf(room, force, triggerAt), at))
  {
    if !force {
      UnforcedStartHasReason(room, planAt, triggerAt);
    }
  }

  lemma OtherStepsKeepStarts(w: World, step: Step)
    requires CursorInv(w.room) && Next(w, step).Some? && !step.Start? && !step.Prepare?
    ensures SameStarts(w.room, Next(w, step).value.room)
  {
  }

  lemma PrepareKeepsStarts(w: World, prover: Option<Replay.PreparedJournal>, failAt: int)
    requires w.attempt.Some? && w.attempt.value.index < |w.room.checkpoints| && PrepareNext(w, prover, failAt).Some?
    ensures SameStarts(w.room, PrepareNext(w, prover, failAt).value.room)
  {
    Guarantees.PrepareOutcome(w, prover, failAt);
  }

  lemma SameStartsKeepPaced(before: Room, after: Room)
    requires Paced(before) && SameStarts(before, after)
    ensures Paced(after)
  {
  }

  /**
   * In every run, an attempt the history does not record as forced or as filling
   * a block starts at least 60 s after the one before it, failed ones included.
   */
  lemma {:induction false} AttemptsArePaced(
    mode: Mode, createdAt: int, deadline: Option<nat>, chain: Replay.OnChainRoom, steps: seq<Step>)
    requires chain.batchIndex == 0
    requires Run(Initial(mode, createdAt, deadline, chain), steps).Some?
    ensures Paced(Run(Initial(mode, createdAt, deadline, chain), steps).value.room)
  {
    if steps != [] {
      var front, step := steps[..|steps| - 1], steps[|steps| - 1];
      AttemptsArePaced(mode, createdAt, deadline, chain, front);
      InitialInv(mode, createdAt, deadline, chain);
      RunKeepsInv(Initial(mode, createdAt, deadline, chain), front);
      NextKeepsPaced(Run(Initial(mode, createdAt, deadline, chain), front).value, step);
    }
  }

  lemma NextKeepsPaced(w: World, step: Step)
    requires CursorInv(w.room) && Paced(w.room) && Next(w, step).Some?
    ensures Paced(Next(w, step).value.room)
  {
    if step.Start? {
      StartKeepsPaced(w.room, step.force, step.planAt, step.triggerAt, step.at);
    } else {
      if step.Prepare? {
        PrepareKeepsStarts(w, step.prover, step.failAt);
      } else {
        OtherStepsKeepStarts(w, step);
      }
      SameStartsKeepPaced(w.room, Next(w, step).value.room);
    }
  }
}
