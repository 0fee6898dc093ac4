/**
 * When a room's pending moves are worth proving, and where the thresholds of
 * that decision come from. Clocks and chain reads are inputs.
 */
module CheckpointPolicy {
  import opened Wrappers

  const MEASURED_ROOM_PROOF_SECONDS: real := 17.23
  const CHECKPOINT_OVERHEAD_SECONDS: real := 8.0
  const L1_BLOCK_SECONDS: real := 12.0
  const L1_INCLUSION_BLOCKS: nat := 2
  const CHECKPOINT_WALL_CLOCK_SECONDS: real :=
    MEASURED_ROOM_PROOF_SECONDS + CHECKPOINT_OVERHEAD_SECONDS + L1_INCLUSION_BLOCKS as real * L1_BLOCK_SECONDS
  const CHECKPOINT_BUDGET_BLOCKS: int := Ceil(CHECKPOINT_WALL_CLOCK_SECONDS / L1_BLOCK_SECONDS)
  const L1_REORG_MARGIN_BLOCKS: int := 64
  const CHECKPOINT_RETRY_BLOCKS: int := CHECKPOINT_BUDGET_BLOCKS
  const DEADLINE_SAFETY_BLOCKS: int := L1_REORG_MARGIN_BLOCKS + CHECKPOINT_RETRY_BLOCKS
  const CHECKPOINT_START_MARGIN_BLOCKS: int := CHECKPOINT_BUDGET_BLOCKS + DEADLINE_SAFETY_BLOCKS
  const L2_BLOCK_GAS_LIMIT: nat := 5_000_000
  const CARD_MOVE_GAS: nat := 600_000
  const MOVES_PER_L2_BLOCK: nat := L2_BLOCK_GAS_LIMIT / CARD_MOVE_GAS
  const L2_BLOCKS_PER_BATCH: nat := 2
  const BATCH_MOVE_CAPACITY: nat := MOVES_PER_L2_BLOCK * L2_BLOCKS_PER_BATCH
  const CHECKPOINT_MOVE_THRESHOLD: nat := BATCH_MOVE_CAPACITY * 3 / 4
  const CHECKPOINT_INTERVAL_SECONDS: real := 180.0
  const CHECKPOINT_MINIMUM_INTERVAL_SECONDS: real := 60.0

  function Ceil(x: real): int {
    -((-x).Floor)
  }

  datatype Trigger = CAPACITY | MOVES | ELAPSED | DEADLINE | MANUAL

  datatype Decision = HOLD | DUE | BLOCKED

  datatype PolicyInput = PolicyInput(
    pendingInBlock1: nat,
    pendingInBlock2: nat,
    secondsSinceLastCheckpoint: real,
    hasCheckpointed: bool,
    currentBlock: Option<int>,
    deadlineBlock: Option<int>,
    budgetBlocks: Option<int>)

  datatype Plan = Plan(
    decision: Decision,
    trigger: Option<Trigger>,
    pending: nat,
    movesUntilDue: nat,
    secondsUntilDue: Option<real>,
    blocksUntilDeadlineTrigger: Option<int>)

  function BlocksLeft(input: PolicyInput): Option<int> {
    if input.deadlineBlock.Some? && input.currentBlock.Some?
    then Some(input.deadlineBlock.value - input.currentBlock.value)
    else None
  }

  predicate CapacityFull(input: PolicyInput) {
    || input.pendingInBlock1 >= MOVES_PER_L2_BLOCK
    || input.pendingInBlock2 >= MOVES_PER_L2_BLOCK
    || input.pendingInBlock1 + input.pendingInBlock2 >= BATCH_MOVE_CAPACITY
  }

  /** Hold, prove, or give up on this batch: the first rule that applies decides. */
  function PlanCheckpoint(input: PolicyInput): Plan {
    var budget := if input.budgetBlocks.Some? then input.budgetBlocks.value else CHECKPOINT_BUDGET_BLOCKS;
    var pending := input.pendingInBlock1 + input.pendingInBlock2;
    var movesUntilDue := if pending >= CHECKPOINT_MOVE_THRESHOLD then 0 else CHECKPOINT_MOVE_THRESHOLD - pending;
    var secondsUntilDue :=
      if input.secondsSinceLastCheckpoint >= CHECKPOINT_INTERVAL_SECONDS then None
      else Some(CHECKPOINT_INTERVAL_SECONDS - input.secondsSinceLastCheckpoint);
    var blocksLeft := BlocksLeft(input);
    var untilTrigger :=
      if blocksLeft.None? then None else Some(blocksLeft.value - CHECKPOINT_START_MARGIN_BLOCKS);
    if input.pendingInBlock1 < 1 || input.pendingInBlock2 < 1 then
      Plan(HOLD, None, pending, movesUntilDue, secondsUntilDue, untilTrigger)
    else if blocksLeft.Some? && blocksLeft.value < budget then
      Plan(BLOCKED, Some(DEADLINE), pending, movesUntilDue, secondsUntilDue, untilTrigger)
    else if CapacityFull(input) then
      Plan(DUE, Some(CAPACITY), pending, 0, secondsUntilDue, untilTrigger)
    else if untilTrigger.Some? && untilTrigger.value <= 0 then
      Plan(DUE, Some(DEADLINE), pending, movesUntilDue, secondsUntilDue, untilTrigger)
    else if input.hasCheckpointed && input.secondsSinceLastCheckpoint < CHECKPOINT_MINIMUM_INTERVAL_SECONDS then
      Plan(HOLD, None, pending, movesUntilDue, secondsUntilDue, untilTrigger)
    else if pending >= CHECKPOINT_MOVE_THRESHOLD then
      Plan(DUE, Some(MOVES), pending, 0, secondsUntilDue, untilTrigger)
    else if secondsUntilDue.None? then
      Plan(DUE, Some(ELAPSED), pending, movesUntilDue, secondsUntilDue, untilTrigger)
    else
      Plan(HOLD, None, pending, movesUntilDue, secondsUntilDue, untilTrigger)
  }

  /** A hold that is only a preference: both blocks hold a move and the rate limit is past. */
  predicate FinalHold(input: PolicyInput) {
    && PlanCheckpoint(input).decision == HOLD
    && input.pendingInBlock1 >= 1
    && input.pendingInBlock2 >= 1
    && !(input.hasCheckpointed && input.secondsSinceLastCheckpoint < CHECKPOINT_MINIMUM_INTERVAL_SECONDS)
  }

  /** The constants are the sums their comments give. */
  lemma DerivedConstants()
    ensures CHECKPOINT_BUDGET_BLOCKS == 5
    ensures DEADLINE_SAFETY_BLOCKS == 69 && CHECKPOINT_START_MARGIN_BLOCKS == 74
    ensures MOVES_PER_L2_BLOCK == 8 && BATCH_MOVE_CAPACITY == 16 && CHECKPOINT_MOVE_THRESHOLD == 12
  {
    var blocks := CHECKPOINT_WALL_CLOCK_SECONDS / L1_BLOCK_SECONDS;
    assert CHECKPOINT_WALL_CLOCK_SECONDS == 49.23;
    assert 4.0 < blocks < 5.0;
    assert -5.0 <= -blocks < -4.0;
  }

  /**
   * The whole decision with the measured budget, as when and why: full blocks
   * first, then the deadline, then twelve moves, then three minutes, the last
   * two no sooner than a minute after the last checkpoint.
   */
  lemma DecidesIff(input: PolicyInput)
    requires input.budgetBlocks.None?
    ensures var plan := PlanCheckpoint(input);
            var one, two, seconds := input.pendingInBlock1, input.pendingInBlock2, input.secondsSinceLastCheckpoint;
            var both := input.deadlineBlock.Some? && input.currentBlock.Some?;
            var shut := both && input.currentBlock.value + 5 > input.deadlineBlock.value;
            var near := both && input.currentBlock.value + 74 >= input.deadlineBlock.value;
            var full := one >= 8 || two >= 8;
            && (plan.decision == BLOCKED <==> one > 0 && two > 0 && shut)
            && (plan.decision == DUE <==>
                  && one > 0 && two > 0 && !shut
                  && (full || near || ((input.hasCheckpointed ==> seconds >= 60.0) && (one + two >= 12 || seconds >= 180.0))))
            && (plan.trigger == None <==> plan.decision == HOLD)
            && (plan.trigger == Some(CAPACITY) <==> plan.decision == DUE && full)
            && (plan.trigger == Some(DEADLINE) <==> plan.decision == BLOCKED || (plan.decision == DUE && !full && near))
            && (plan.trigger == Some(MOVES) <==> plan.decision == DUE && !full && !near && one + two >= 12)
            && (plan.trigger == Some(ELAPSED) <==> plan.decision == DUE && !full && !near && one + two < 12)
            && plan.pending == one + two
            && (plan.blocksUntilDeadlineTrigger.Some? <==> both)
            && (both ==> plan.blocksUntilDeadlineTrigger == Some(input.deadlineBlock.value - input.currentBlock.value - 74))
  {
    DerivedConstants();
  }

  /** In the final hold, time alone makes the plan due exactly when the published seconds have elapsed. */
  lemma SecondsUntilDueIsExact(input: PolicyInput, later: real)
    requires FinalHold(input) && later >= input.secondsSinceLastCheckpoint
    ensures PlanCheckpoint(input).secondsUntilDue.Some?
    ensures PlanCheckpoint(input.(secondsSinceLastCheckpoint := later)).decision == DUE
            <==> later - input.secondsSinceLastCheckpoint >= PlanCheckpoint(input).secondsUntilDue.value
  {
    DerivedConstants();
  }

  /** In the final hold, moves alone make it due once the published number has arrived, or a block fills. */
  lemma MovesUntilDueIsSufficient(input: PolicyInput, more: PolicyInput)
    requires FinalHold(input)
    requires more == input.(pendingInBlock1 := more.pendingInBlock1, pendingInBlock2 := more.pendingInBlock2)
    requires more.pendingInBlock1 >= input.pendingInBlock1 && more.pendingInBlock2 >= input.pendingInBlock2
    ensures var added := (more.pendingInBlock1 - input.pendingInBlock1) + (more.pendingInBlock2 - input.pendingInBlock2);
            PlanCheckpoint(more).decision == DUE
            <==> || added >= PlanCheckpoint(input).movesUntilDue
                 || more.pendingInBlock1 >= MOVES_PER_L2_BLOCK
                 || more.pendingInBlock2 >= MOVES_PER_L2_BLOCK
  {
    DerivedConstants();
  }

  /** Waiting never undoes a due plan, and never turns a reason to prove into no reason. */
  lemma DueStaysDue(input: PolicyInput, later: real)
    requires PlanCheckpoint(input).decision == DUE && later >= input.secondsSinceLastCheckpoint
    ensures var plan := PlanCheckpoint(input.(secondsSinceLastCheckpoint := later));
            && plan.decision == DUE && plan.trigger.Some? && plan.trigger.value != MANUAL
            && (plan.trigger.value == CAPACITY <==> CapacityFull(input))
            && (plan.trigger.value == DEADLINE <==> PlanCheckpoint(input).trigger == Some(DEADLINE))
  {
    DerivedConstants();
  }

  /** Inside the minimum interval after a checkpoint only capacity and the deadline may start another. */
  lemma RateLimitYieldsOnlyToCapacityAndDeadline(input: PolicyInput)
    requires input.hasCheckpointed
    requires PlanCheckpoint(input).decision == DUE
    requires input.secondsSinceLastCheckpoint < CHECKPOINT_MINIMUM_INTERVAL_SECONDS
    ensures CapacityFull(input) || (BlocksLeft(input).Some? && BlocksLeft(input).value <= CHECKPOINT_START_MARGIN_BLOCKS)
  {
    DerivedConstants();
  }

  /**
   * Blocks arrive one at a time. With the measured budget, a provable room whose
   * plan is blocked by its deadline was due at each of the 70 heads just before
   * the window closed.
   */
  lemma DueBeforeBlocked(input: PolicyInput, head: int)
    requires input.budgetBlocks.None? && input.deadlineBlock.Some?
    requires input.pendingInBlock1 >= 1 && input.pendingInBlock2 >= 1
    ensures var deadline := input.deadlineBlock.value;
            var plan := PlanCheckpoint(input.(currentBlock := Some(head)));
            && (plan.decision == BLOCKED <==> head > deadline - 5)
            && (deadline - 74 <= head <= deadline - 5 ==> plan.decision == DUE)
  {
    DerivedConstants();
  }
}
