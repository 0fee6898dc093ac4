# Verified model of the zkdeal coordinator

A Dafny 4.11 model of the coordinator's protocol logic and the proofs of what it promises. `dafny verify dfyconfig.toml` checks everything.

The coordinator runs *rooms*: logs of signed moves proved in two-block batches and settled on Ethereum. Each batch after the first is rebuilt from the log alone, so the rebuilt history must equal what was proved before. Around the rooms stand an admission service that signs slashable receipts, a single proving slot, a settlement watcher, a multi-source L1 indexer, a policy hash, and a few small algorithms with sharp edges.

## How it is organised

| Part | Files | What it is |
|---|---|---|
| Room lifecycle | `RoomModel`, `CheckpointState`, `CheckpointPolicy`, `CheckpointPacing` | the room's log, cursor and attempts; the class `DemoRoom` updates them in place |
| Replay | `Replay`, `RoomRuns`, `RoomGuarantees`, `RoomProgress`, `RoomView` | rebuilding the history; a step relation over adds, starts, failures, landings, L1 reorganisations and finality, restarts and retractions; and when a room can go on |
| Fixture signing | `FixtureSigning`, `ReplayNonces` | nonces as ranks in the log, and when the replay shows them in order |
| Proving slot | `ProvingSlot` | the first-come queue, cut at its awaits |
| Settlement watcher | `SettlementWatcher`, `SettlementOutcomes` | the polling loop against arbitrary provider answers, and exactly what each kind of poll comes to |
| Policy hash | `HexText`, `HexNumbers`, `PolicyEncoding`, `PolicyDecoding`, `PolicyLayout`, `PolicyJson` | the preimage, a reader that recovers the policy from it, where its fields stand, and the JSON normaliser |
| Admission | `SubmissionChain`, `Admission`, `AdmissionGuarantees`, `AdmissionRestarts`, `AdmissionDelivery`, `AdmissionExposure`, `AdmissionReceipts`, `AdmissionOutcomes`, `HostedAdmission`, `HostedOutcomes` | the per-room lock, the standalone service at await granularity, and the hosted write-ahead log |
| Indexer | `Indexer`, `IndexerCoverage`, `IndexerReading`, `IndexerProgress`, `IndexerReorgs` | the ancestor search, the block and source loops, the floor |
| Failing runs | `RoomExamples`, `AdmissionExamples`, `IndexerExamples` | concrete runs in which a property fails once its condition does |
| Small algorithms | `ApproverTree`, `RoomNames`, `Faucet`, `FaucetOutcomes`, `RateLimiter` | tree proofs, fresh names, the hourly budget, the token bucket |

Asynchronous code is a state machine whose steps are the stretches between awaits; answers from outside (L1 heads, receipts, signatures, random draws, clocks, failures) are arguments of the steps and are never constrained unless a lemma says so. Objects the source mutates are classes whose methods are proved equal to a specification function, and the theorems are about that function and its runs.

## What turned out false, or narrower than it looks

Each of these has the input that shows it and the exact condition under which the property holds.

* **A batch that lands while its attempt is lost stops the room.** Until L1 drops it nothing is settled (`RoomProgress.SettlingTakesDrops`), and once it is final nothing ever is (`RoomProgress.LostAcceptanceIsPermanent`). A room that could be checkpointed now can settle another batch if and only if no batch it does not own is final and its pending moves can be signed (`RoomProgress.SettlesAgainIff`). `RoomExamples.AcceptanceIsLost` reaches the stopped room, `RoomExamples.DroppedBatchIsNotFatal` the one a reorganisation saves.
* **A shop room can wedge, with or without a failed attempt.** One client-signed and one unsigned move pending together, with no attempt under way, make every later batch mixed and refused: no attempt leaves its queue and nothing more is stamped, whatever is added or restarted (`RoomProgress.BlockedBatchWedges`). A batch is refused as mixed exactly when it is partly signed (`FixtureSigning.MixedBatchIff`); `RoomExamples.ShopRoomWedges` is such a room.
* **Retracting an attempt that is not the newest accepted one breaks the cursor** (`RoomExamples.OlderRetractionBreaksCursor`), and retracting the newest restores it: an if-and-only-if (`CheckpointState.RollbackKeepsCursorIff`). **A retraction can push a block's pending moves over the 32 cap** (`RoomExamples.RetractionOverfills`), exactly when what it reopens does not fit beside what waits (`RoomGuarantees.RetractKeepsSizedIff`). Nothing in the server calls `rollbackCheckpoint`.
* **Replayed nonces are 0, 1, 2, … exactly under two conditions** (`ReplayNonces.ReplayedNoncesInOrderIff`): each batch keeps a signer's block-one moves before its block-two moves, and no move counted for the signer was signed by a client before one its fixture signed. Either can fail alone: `RoomExamples.NoncesComeOutShuffled` posts 1 before 0, `RoomExamples.NoncesSkipClients` begins at 1.
* **An indexer run that finds a reorganisation can leave a hole**, whether L1 changed during the run or before it. Cursors are read into memory once; a source that had already passed the replaced height skips the new branch (`IndexerExamples.ReplacedBranchLeavesHole`). A source stays covered exactly when it had not reached that block, or the run stops before it ingests again (`IndexerReorgs.ReorgCoverageIff`); over whole histories coverage holds while no run finds a cursor above the common ancestor (`IndexerReorgs.SteadyRunsCover`).
* **A faucet send that fails late releases a newer reservation**, so the per-address cooldown fails (`Faucet.LateFailureBreaksCooldown`). A failure lets the next drip break it if and only if another live reservation of the same address is still cooling down (`Faucet.FailureBreaksCooldownIff`).
* **Drained admission rows can come back** (`AdmissionExamples.DrainedRowsComeBack`). A drain is safe, whatever follows, exactly when no submission holds a queue snapshot sharing a row with the queue, that is between its claim and its write-back (`AdmissionDelivery.DrainIsSafeIff`); with every drain so placed, delivery is exactly once (`AdmissionDelivery.DeliveredExactlyOnce`).
* **Without a path for the id record an id can be issued twice** (`AdmissionExamples.ForgottenIdIsReissued`). A submission's id rises above every returned one if and only if the archive it opened accounted for them all (`AdmissionRestarts.SubmissionRisesIff`; over whole runs `AdmissionRestarts.IdsRiseIff`); with a path they always do (`AdmissionGuarantees.IdsNeverRepeat`).
* **An id record the disk refuses leaves a gap** (`AdmissionExamples.FailedRecordLeavesGap`): the receipt is archived first and never returned. While rewrites keep the highest id accounted for, returned ids are consecutive if and only if no submission returns after one that was archived and then failed its record (`AdmissionExposure.IdsAreConsecutiveIff`).

## Model

| member | source | states |
|---|---|---|
| CheckpointState.BuildDemoAction | server/src/demo-action.ts:37-89 | an accepted move is unstamped, has the caller's id, its calldata cleaned and with a permitted selector, a long enough envelope exactly when one was sent, the block asked for, and joins a block with fewer than 32 pending moves |
| CheckpointState.AssertCheckpointable | server/src/demo-checkpoint-state.ts:72-93 | what it returns is the pending moves of an open, deployed room with no running attempt, both blocks non-empty, and a due plan unless forced |
| CheckpointState.BuildsIff | server/src/demo-action.ts:37-89 | a move is taken exactly when its call is clean and permitted, its envelope clean and long enough, and its block is one or two with fewer than 32 moves waiting; every field of the action it becomes |
| CheckpointState.CheckpointableIff | server/src/demo-checkpoint-state.ts:72-93 | an attempt may start exactly in an open, deployed, idle room with a move waiting in each block that is due or forced |
| CheckpointState.PlanSeesTheRoom | server/src/demo-checkpoint-state.ts:36-66 | the plan is made from the waiting moves of each block, the time since the last attempt and the deadline |
| CheckpointState.DemoRoom.AddAction | server/src/demo-controller.ts:405-432 | appends exactly the one built move |
| CheckpointState.DemoRoom.StartCheckpoint | server/src/demo-checkpoint-state.ts:96-114 | pushes one running record numbered next, naming the carried moves, and touches no move |
| CheckpointState.DemoRoom.CompleteCheckpoint | server/src/demo-checkpoint-state.ts:121-135 | the whole new room: the record accepted, exactly its moves stamped, the result published |
| CheckpointState.DemoRoom.FailCheckpoint | server/src/demo-checkpoint-state.ts:142-151 | closes the record as failed and stamps nothing |
| CheckpointState.DemoRoom.RollbackCheckpoint | server/src/demo-checkpoint-state.ts:158-180 | un-stamps exactly that attempt's moves and republishes the newest remaining accepted result |
| CheckpointState.DemoRoom.MigrateRoom | server/src/demo-checkpoint-state.ts:188-208 | a room from before checkpoint records gets the one record its result implies |
| CheckpointState.DemoRoom.Restore | server/src/demo-store.ts:43-68 | a restart fails every running attempt and leaves the rest, the phase included |
| CheckpointState.CompleteKeepsCursor | server/src/demo-checkpoint-state.ts:121-135 | completion keeps every room invariant and extends the stamped prefix by exactly the moves the attempt carried |
| CheckpointState.FailKeepsCursor | server/src/demo-checkpoint-state.ts:142-151 | a failure keeps the invariants, the log and everything accepted |
| CheckpointState.RestoreKeepsCursor | server/src/demo-store.ts:43-68 | a restart keeps the invariants, the log and everything accepted, and leaves nothing running |
| CheckpointState.MigrateEstablishesCursor | server/src/demo-checkpoint-state.ts:188-208 | migrating an old room establishes the invariants the new code relies on |
| CheckpointState.RollbackRestoresCursor | server/src/demo-checkpoint-state.ts:158-180 | retracting the newest accepted attempt restores the cursor and latest result from before it |
| CheckpointState.RollbackUndoesComplete | server/src/demo-checkpoint-state.ts:121-180 | completion followed by retraction gives back the log, the result and all earlier records |
| CheckpointState.RollbackKeepsCursorIff | server/src/demo-checkpoint-state.ts:158-180 | retraction keeps the cursor if and only if the attempt is the newest accepted one |
| CheckpointState.RollbackReopens | server/src/demo-checkpoint-state.ts:158-180 | how many pending moves a block holds after a retraction: those the attempt carried plus those waiting |
| CheckpointPolicy.SecondsUntilDueIsExact | server/src/demo-checkpoint-policy.ts:179-309 | from the final hold, time alone makes the plan due exactly after the published seconds |
| CheckpointPolicy.MovesUntilDueIsSufficient | server/src/demo-checkpoint-policy.ts:179-309 | from the final hold, moves alone make it due exactly at the published number or when a block fills |
| CheckpointPolicy.DueStaysDue | server/src/demo-checkpoint-policy.ts:179-309 | waiting never undoes a due plan nor changes whether capacity or the deadline is its reason |
| CheckpointPolicy.RateLimitYieldsOnlyToCapacityAndDeadline | server/src/demo-checkpoint-policy.ts:179-309 | inside the minimum interval only capacity or the deadline can make it due |
| CheckpointPolicy.DueBeforeBlocked | server/src/demo-checkpoint-policy.ts:179-309 | a provable room is due at every head of the 70 before its deadline window closes |
| CheckpointPolicy.DecidesIff | server/src/demo-checkpoint-policy.ts:179-309 | for every input, exactly when the plan holds, is due or is blocked, and for which reason, in the measured numbers |
| CheckpointPacing.UnforcedStartHasReason | server/src/demo-checkpoint-state.ts:72-114 | an unforced start records a real trigger, and outside capacity comes at least 60 s after the previous attempt |
| CheckpointPacing.AttemptsArePaced | server/src/demo-checkpoint-state.ts:96-114 | over every run, an attempt neither forced nor full starts at least 60 s after the one before it |
| Replay.SplitRecord | server/src/demo-runtime-checkpoint.ts:170-205 | the inner loop computes one record's two blocks of envelopes or the first reason it cannot |
| Replay.ReadProvedBlocks | server/src/demo-runtime-checkpoint.ts:170-205 | the outer loop computes the replayed history of the accepted records |
| Replay.SortSorts | server/src/demo-runtime-checkpoint.ts:170-205 | the sort of accepted records is an ascending permutation |
| Replay.ProvedBlocksInOrder | server/src/demo-runtime-checkpoint.ts:170-205 | in a consistent room the sort changes nothing |
| Replay.SplitOfSegment | server/src/demo-runtime-checkpoint.ts:113-205 | a record's ids split into exactly the envelopes its moves were sent as |
| Replay.CompletionAppendsBlocks | server/src/demo-runtime-checkpoint.ts:113-205 | completing appends to the replayed history exactly the two blocks the attempt sent, and changes nothing before them |
| Replay.MovesOfGrows | server/src/demo-runtime-checkpoint.ts:113-154 | each further move joins its own block in every form a batch is sent in, and a form is lost exactly when one move lacks it |
| Replay.OnlyContinuation | server/src/demo-runtime-checkpoint.ts:239-249 | the continuation asked for is the one that follows what the chain holds |
| RoomRuns.RequestIsHistoryPlusBatch | server/src/demo-runtime-checkpoint.ts:217-249 | a request exists exactly when accepted attempts match on-chain batches, names the next batch and carries the history plus this batch's blocks |
| RoomRuns.RunKeepsInv | server/src/demo-controller.ts:405-585 | every reachable room has attempts numbered 1..n with at most the newest running, and the accepted attempts' ids concatenated are exactly the stamped prefix of the log |
| RoomGuarantees.ReplayReproducesHistory | server/src/demo-runtime-checkpoint.ts:217-237 | after any run, batch N > 1 replays 2N blocks whose first 2N-2 are, envelope for envelope, what the accepted attempt for batch N-1 sent |
| RoomGuarantees.PostedRequestGrowsHistory | server/src/demo-runtime-checkpoint.ts:278-417 | every request actually posted is the previous accepted request with this attempt's blocks appended |
| RoomGuarantees.PrepareAlwaysAnswers | server/src/demo-runtime-checkpoint.ts:278-417 | in every reachable world the attempt can be prepared or is refused with a reason |
| RoomProgress.AttemptPostsIff | server/src/demo-runtime-checkpoint.ts:278-325 | a queued attempt posts exactly when its batch can be signed, the chain holds only the room's own batches and the prover opened the next one; otherwise it is recorded as failed |
| RoomProgress.StaleProverIsRefused | server/src/demo-runtime-checkpoint.ts:256-276 | once a batch is settled, an attempt gets past its queue only with a prover that names the next batch and opens from the chain's root |
| RoomProgress.GapClosesOnlyByDrop | server/src/demo-live-runtime.ts:645-653 | only an L1 reorganisation takes back a batch no attempt owns, and while there is one nothing new is settled |
| RoomProgress.SettlingTakesDrops | server/src/demo-live-runtime.ts:645-653 | a run with fewer drops than unowned batches settles nothing |
| RoomProgress.LostAcceptanceIsPermanent | server/src/demo-runtime-checkpoint.ts:217-237 | once a batch no attempt owns is final, the room never settles another |
| RoomProgress.BlockedBatchWedges | server/src/shop-signing.ts:20-38 | once what a room would carry next cannot be signed, no run gets an attempt past its queue, stamps a move or settles a batch |
| RoomProgress.SettlesAgainIff | server/src/demo-controller.ts:478-550 | a room that could be checkpointed now can settle again if and only if no unowned batch is final and its pending moves can be signed |
| RoomExamples.AcceptanceIsLost | server/src/demo-controller.ts:542-549 | a run from a fresh room to a final batch no attempt owns |
| RoomExamples.DroppedBatchIsNotFatal | server/src/demo-controller.ts:542-549 | the same failure before finality: the chain shows the batch, and the room can still settle |
| RoomExamples.ShopRoomWedges | server/src/shop-signing.ts:20-38 | two moves, one signed by its client, and no attempt ever: the room can never settle |
| RoomExamples.NoncesComeOutShuffled | server/src/demo-runtime-checkpoint.ts:170-205 | a run that posts a signer's nonces out of order |
| RoomExamples.NoncesSkipClients | server/src/fixture-signing.ts:60-72 | a run whose batch keeps its blocks in order and shows nonce one alone |
| RoomExamples.RetractionOverfills | server/src/demo-checkpoint-state.ts:158-180 | a run whose retraction leaves 33 moves in one block |
| RoomExamples.OlderRetractionBreaksCursor | server/src/demo-checkpoint-state.ts:158-180 | a room whose cursor an older batch's retraction breaks |
| RoomGuarantees.RetractKeepsSizedIff | server/src/demo-checkpoint-state.ts:158-180 | a retraction keeps every block within 32 exactly when what it reopens fits beside what waits |
| RoomGuarantees.ReplayedBlocksAreSized | server/src/demo-action.ts:65-73 | in every run whose retractions fit, each replayed block holds 1 to 32 envelopes |
| RoomView.SettlementIsTheOneCarrier | server/src/demo-room-view.ts:228-247 | each stamped move's published settlement shows, field by field, the result of the one accepted attempt that carried it, and unstamped moves have none |
| FixtureSigning.SignFixtureCheckpointActions | server/src/fixture-signing.ts:45-87 | the signing loop equals the specification: which moves it signs, with which nonce, and where it stops |
| FixtureSigning.SignAllIsPointwise | server/src/fixture-signing.ts:45-87 | signing changes only named unsigned moves, each to the envelope of its rank; a success leaves none of them unsigned |
| FixtureSigning.NewEnvelopesSignTheirMoves | server/src/fixture-signing.ts:60-86 | every envelope a call writes is the fixture's transaction for its own move: data, recipient, chain, gas, signer, and as nonce the number of the signer's earlier moves; nothing else of the move changes |
| FixtureSigning.PlacedEnvelopesSignTheirMoves | server/src/fixture-signing.ts:60-86 | the same of every fixture envelope that stands in a log of ranked nonces |
| FixtureSigning.SigningStopsAtFirstRefusal | server/src/fixture-signing.ts:45-87 | a call fails at the first move that the log it was given could not sign, and for that move's reason |
| FixtureSigning.SplitSigningAgrees | server/src/fixture-signing.ts:45-87 | any split into calls, with failed ones in between, is refused for the same reason as one call would be, and otherwise signs every move the same way |
| FixtureSigning.GrowthKeepsRanks | server/src/fixture-signing.ts:45-87 | stamping and new moves never change the rank an envelope was signed with |
| FixtureSigning.MixedBatchIff | server/src/shop-signing.ts:20-38 | a shop batch is refused as mixed if and only if it is partly signed, and is left as it was |
| FixtureSigning.ReplayOrderIff | server/src/fixture-signing.ts:45-87 | one batch replays a signer's nonces in log order if and only if it keeps the signer's blocks in order |
| ReplayNonces.ReplayedNoncesInOrderIff | server/src/demo-runtime-checkpoint.ts:170-205 | over every run, the posted history shows a signer's nonces as 0, 1, 2, … if and only if every batch keeps the signer's blocks in order and no client signed a move counted for it before one its fixture signed |
| ProvingSlot.Queue.Arrive | server/src/demo-proving-queue.ts:62-87 | joining: the caller's number, whether it waits, and the position it reports |
| ProvingSlot.Queue.Resume | server/src/demo-proving-queue.ts:86-89 | the released caller takes the slot |
| ProvingSlot.Queue.Finish | server/src/demo-proving-queue.ts:92-97 | leaving the queue and releasing whoever is first |
| ProvingSlot.OneWorkInArrivalOrder | server/src/demo-proving-queue.ts:62-98 | under every interleaving at most one work runs, it is the head's, and works start and end in arrival order |
| ProvingSlot.HeadCanMove | server/src/demo-proving-queue.ts:76-98 | with a queue and nothing running the head has been released and has a step to take |
| ProvingSlot.WaitIsBounded | server/src/demo-proving-queue.ts:62-98 | each head's step strictly shortens the distance of every queued caller to the slot |
| ProvingSlot.PlacesMatchFinishes | server/src/demo-proving-queue.ts:101-104 | over any run, a caller still queued has moved up by exactly the works that finished |
| ProvingSlot.ReportedPlaceIsPositive | server/src/demo-proving-queue.ts:77-82 | a caller that reports is never told place zero |
| ProvingSlot.StatusIsTheQueue | server/src/demo-proving-queue.ts:111-125 | the published status lists the running head and the waiting rest with their places |
| SettlementWatcher.WatchSettlement | server/src/l1-settlement-watcher.ts:117-225 | the loop computes the watch over the polls it is given |
| SettlementWatcher.AgreedBlockIsUnanimous | server/src/l1-settlement-watcher.ts:63-78 | a block is agreed exactly when every provider answers the same number and hash |
| SettlementWatcher.WatchIsGood | server/src/l1-settlement-watcher.ts:117-225 | against any answers: at most the permitted rebroadcasts, each below the deadline at the head it checked, and every retraction takes back a standing acceptance |
| SettlementWatcher.ReturnedSettlementIsFinal | server/src/l1-settlement-watcher.ts:187-221 | a returned settlement is a successful receipt with the watched calldata whose block every provider called canonical before and after an agreed finalized head at or above it |
| SettlementWatcher.MissingIsCounted | server/src/l1-settlement-watcher.ts:134-166 | the missing counter never exceeds the polls that really missed in a row |
| SettlementWatcher.RebroadcastNeedsMisses | server/src/l1-settlement-watcher.ts:134-166 | a poll without a receipt rebroadcasts only after the configured misses and below the deadline |
| SettlementOutcomes.WatchReturnsIff | server/src/l1-settlement-watcher.ts:187-221 | a quiet poll ends a continuing watch with a settlement if and only if its answers vouch for one, and then with one it vouches for |
| SettlementOutcomes.MissingPollOutcome | server/src/l1-settlement-watcher.ts:134-166 | without a receipt: the acceptance taken back, the warning given, and then exactly when the watch waits, gives up or broadcasts again |
| SettlementOutcomes.StalePollOutcome | server/src/l1-settlement-watcher.ts:178-192 | with a receipt off the canonical chain: exactly when it gives up and when it broadcasts again |
| SettlementOutcomes.CanonicalPollEvents | server/src/l1-settlement-watcher.ts:193-203 | with a canonical receipt: its acceptance is published exactly when it is new, and a warning given exactly when due |
| SettlementOutcomes.MissesAreCounted | server/src/l1-settlement-watcher.ts:134-165 | over any polls the counter is the number missed since the receipt was last seen or broadcast |
| SettlementOutcomes.WatchIsTold | server/src/l1-settlement-watcher.ts:117-225 | over any polls the watched hash, the standing acceptance, the last warning and the rebroadcasts are what the events say |
| HexNumbers.HexUintReadsBack | server/src/execution-policy-v5.ts:53-55 | a number that fits is written in exactly its width and read back unchanged |
| HexNumbers.DigitsAreCanonical | server/src/execution-policy-v5.ts:53-55 | digits of a fixed width are the padded text of their own number |
| PolicyEncoding.CollectChunks | server/src/execution-policy-v5.ts:193-233 | the nested loops push exactly the specified chunks |
| PolicyEncoding.CollectCall | server/src/execution-policy-v5.ts:206-209 | one call rule's pushes, with its two counted inner lists |
| PolicyEncoding.CollectExit | server/src/execution-policy-v5.ts:222-231 | the optional tail's pushes |
| PolicyDecoding.DecodeRecovers | server/src/execution-policy-v5.ts:193-233 | the preimage of every canonical policy determines the policy |
| PolicyDecoding.EncodeIsInjective | server/src/execution-policy-v5.ts:193-233 | two canonical policies have equal preimages if and only if they are equal |
| PolicyDecoding.ExitIsATail | server/src/execution-policy-v5.ts:219-231 | an exit binding adds a non-empty tail beginning 01 to the encoding without it |
| PolicyLayout.DomainIsTheName | server/src/execution-policy-v5.ts:193-195 | the tag every preimage opens with is the format's name, `zkdeal/execution-policy/v5` |
| PolicyLayout.PreimageLayout | server/src/execution-policy-v5.ts:193-201 | where each scalar stands in the preimage, and in which width |
| PolicyLayout.StorageLayout | server/src/execution-policy-v5.ts:208-211 | where a storage rule's fields stand in its entry |
| PolicyLayout.ImportLayout | server/src/execution-policy-v5.ts:212-215 | where an import's fields stand in its entry |
| PolicyLayout.RegistryLayout | server/src/execution-policy-v5.ts:216-220 | the registry's tag, and where its fields stand |
| PolicyLayout.AssetLayout | server/src/execution-policy-v5.ts:227-229 | where an exit asset's fields stand |
| PolicyJson.AcceptedIsCanonical | server/src/execution-policy-v5.ts:85-190 | whatever is accepted comes out canonical |
| PolicyJson.CanonicalIsFixed | server/src/execution-policy-v5.ts:85-190 | every canonical policy is accepted as itself |
| PolicyJson.NormalizingIsIdempotent | server/src/execution-policy-v5.ts:85-190 | normalising twice is normalising once |
| PolicyJson.AbsentExitIsNullExit | server/src/execution-policy-v5.ts:92-94 | an absent and a null exit give the same policy or the same refusal |
| PolicyJson.SpellingDoesNotMatter | server/src/execution-policy-v5.ts:20-41 | however integers are spelled and bytes are cased, at any depth, the result is the same |
| PolicyJson.PreimageIdentifiesAccepted | server/src/execution-policy-v5.ts:85-233 | two accepted inputs share a preimage if and only if they normalise alike |
| SubmissionChain.Gate.Enter | server/src/admission.ts:719-727 | chaining behind the room's current tail and leaving one's own |
| SubmissionChain.Gate.Leave | server/src/admission.ts:730-733 | releasing the tail and clearing the map only if nobody chained behind |
| SubmissionChain.OneAtATimeInOrder | server/src/admission.ts:719-734 | submissions of one room never overlap and run in arrival order |
| SubmissionChain.NobodyIsStranded | server/src/admission.ts:719-734 | with nothing running, a waiting submission may begin exactly when all before it are over |
| SubmissionChain.MapEntryIsTight | server/src/admission.ts:730-733 | the map entry is gone exactly when nobody holds or awaits the chain |
| Admission.AdmissionService.TakePending | server/src/admission.ts:713-717 | hands out the whole queue and empties it |
| Admission.AdmissionService.BeginSubmission | server/src/admission.ts:740-751 | the archive checks before the first await |
| Admission.AdmissionService.PublishReceipt | server/src/admission.ts:1047-1087 | guarded write, id record, queue and return: a receipt is returned exactly when all of them happened; what it promises is `AdmissionReceipts.ReceiptsPromiseTheirRequests` |
| Admission.AdmissionIdStore.Record | server/src/admission.ts:316-328 | ids are recorded only upwards, one room at a time; the whole record is written, or the caller hears that it was not and memory alone has it |
| AdmissionReceipts.ReceiptsPromiseTheirRequests | server/src/admission.ts:1027-1087 | every receipt of every run carries the numbers of the request that began its submission, the bond epoch of the archive it opened, a batch beyond that archive's latest and a deadline in the room's window; the archived row says the same |
| AdmissionOutcomes.ReturnsIff | server/src/admission.ts:740-1087 | an uninterrupted submission returns a receipt exactly when every listed condition holds, down to the deposit's agreement with the chain; which id, content and archive write it then is, and what stays queued |
| AdmissionOutcomes.ObservedNeverFalls | server/src/observer-store.ts:180-240 | no step but a replaced archive makes the archive forget a head it has seen |
| AdmissionGuarantees.IdsNeverRepeat | server/src/admission.ts:949-990 | against any archive and restarts, returned ids strictly increase and none is more than 256 past the chain's cursor |
| AdmissionGuarantees.NoReceiptIsLost | server/src/admission.ts:930-943 | with drains at any await, each receipt is queued, handed out or past its deadline at a head seen, and the queue keeps its bound |
| AdmissionRestarts.IdsRiseIff | server/src/admission.ts:949-960 | in every run, restarts and rewinds included, ids rise if and only if each returned one came from an archive accounting for all before it |
| AdmissionRestarts.SubmissionRisesIff | server/src/admission.ts:949-960 | whatever happens until a submission returns, its id rises above all returned ones if and only if the archive it opened accounted for them |
| AdmissionRestarts.IdsRiseWhileKnown | server/src/admission.ts:292-328 | without a path, ids rise through restarts while each submission begins on an archive or a memory that accounts for them |
| AdmissionExamples.ForgottenIdIsReissued | server/src/admission.ts:292-328 | a run without a path that returns one id twice |
| AdmissionDelivery.DeliveredExactlyOnce | server/src/admission.ts:930-943 | with drains clear of the snapshots, an unexpired receipt is queued or handed out, never both and never twice |
| AdmissionDelivery.DrainIsSafeIff | server/src/admission.ts:713-717 | a drain can never lead to a second delivery exactly when no snapshot in flight shares a row with the queue |
| AdmissionExamples.DrainedRowsComeBack | server/src/admission.ts:1080-1087 | a run in which a row handed out is queued again |
| AdmissionExposure.ExposureHolds | server/src/admission.ts:752-802 | over the service's own writes and resolutions: pending receipts times the penalty within the bond, no transaction twice, no deposit behind two promises |
| AdmissionExposure.IdsAreConsecutiveIff | server/src/admission.ts:949-960 | while rewrites keep the highest id accounted for, returned ids have no gap if and only if none returns after a receipt that was archived and then failed its id record |
| AdmissionExamples.FailedRecordLeavesGap | server/src/admission.ts:1047-1087 | a run whose first receipt is archived, fails its record and is never returned, so that the first returned id is two |
| AdmissionExposure.ReceiptsRestOnTheChain | server/src/admission.ts:806-914 | a deposit-backed receipt commits to what the chain said of a live, confirmed deposit of its sender, never to the archive's row |
| HostedAdmission.SignaturesAgree | server/src/admission.ts:675-701 | two signatures for one id, by submission, retry or recovery and across crashes, are over one message |
| HostedAdmission.ReturnedReceiptsMatchTheLog | server/src/admission.ts:992-1043 | every receipt handed back says, field by field, what the log holds for its id |
| HostedAdmission.SignaturesSayWhatWasReserved | server/src/admission.ts:675-701 | every signature ever made, by submission, retry or recovery, says field by field what the log holds for its id |
| HostedAdmission.KeptReceiptsMatchTheLog | server/src/postgres-hosted-store.ts:4900-4939 | every receipt the log keeps says, field by field, what its own row reserved |
| HostedOutcomes.ReturnedIsTheStoredReceipt | server/src/postgres-hosted-store.ts:4900-4939 | over any run each receipt a caller was given is the very one the log holds, signature included, so no id is answered with two receipts |
| HostedOutcomes.CommitsIff | server/src/postgres-hosted-store.ts:4900-4939 | a signed receipt is stored exactly on a reserved row, and returned exactly then or when the log holds it already |
| HostedOutcomes.SubmissionOutcome | server/src/admission.ts:992-1043 | a submission returns the stored receipt, goes on to sign its own bytes, or leaves no trace |
| HostedOutcomes.RecoverySignsIff | server/src/admission.ts:675-701 | a recovery signs a listed reservation exactly for the reservation's own signer |
| HostedAdmission.ReservationsStaySingle | server/src/postgres-hosted-store.ts:4807-4898 | at most one reservation is unsigned at a time, no deposit backs two standing ids, no transaction holds two |
| HostedAdmission.ReserveAgainIff | server/src/postgres-hosted-store.ts:4807-4898 | a standing id is given out again exactly for its own bytes and while nothing else is in flight |
| HostedAdmission.HeldForFirstAccepted | server/src/postgres-hosted-store.ts:4807-4898 | over any run an id is held exactly when some submission for it met nothing in flight and a free deposit and transaction, and for the bytes of the first such one; refused ones leave it free |
| HostedAdmission.RecoveryFinishes | server/src/admission.ts:675-701 | wherever a process stopped after reserving, an idle one with the right signer can finish that id; the committed receipt says field by field what was reserved |
| Indexer.CommonAncestor | server/src/hosted-indexer.ts:507-521 | the search loop computes the specified ancestor or error |
| Indexer.AncestorIsGreatest | server/src/hosted-indexer.ts:507-521 | it is the greatest agreeing height at or above the floor, and "disagreement" means there is none |
| Indexer.HostedIndexer.FollowBlock | server/src/hosted-indexer.ts:1080-1100 | one block: the journal write, then the source loop with its skip |
| Indexer.HostedIndexer.FollowBlocks | server/src/hosted-indexer.ts:1079-1101 | the ascending block loop, left at the first failure |
| Indexer.HostedIndexer.Once | server/src/hosted-indexer.ts:1058-1126 | what one run leaves in the store, however it ends |
| IndexerCoverage.RecordKeepsChain | server/src/postgres-hosted-store.ts:10275-10420 | recording a block, replacing or appending, keeps the journal one linked chain above the floor |
| IndexerCoverage.FreshIsSound | server/src/postgres-hosted-store.ts:5312-5369 | a newly anchored follower starts covered |
| IndexerCoverage.CoverageHolds | server/src/hosted-indexer.ts:1065-1119 | over any guarded runs and crashes each source has ingested every canonical block up to its cursor exactly once and in order, and is at or past the floor |
| IndexerReading.RunGainsByReading | server/src/hosted-indexer.ts:1079-1099 | in any run a source's log gains only blocks the run was given and whose records it could read |
| IndexerReading.LogsHoldWhatWasRead | server/src/hosted-indexer.ts:1079-1099 | over any runs each entry of a log was there at first or was read in one of them |
| IndexerReading.UnreadBlockStopsTheRun | server/src/hosted-indexer.ts:525-638 | where a source's records cannot be read, its cursor does not pass the block and nothing above is followed in that run |
| IndexerProgress.ReadableRunCatchesUp | server/src/hosted-indexer.ts:1065-1099 | on one chain that answers every read a run takes every source from the lowest cursor up by the run's allowance or to the latest block, and no further |
| IndexerCoverage.FloorOnlyAdvances | server/src/postgres-hosted-store.ts:5411-5500 | in any run the floor stays or moves up to the agreed finalized block, and the journal stays one chain |
| IndexerProgress.FloorMovesIff | server/src/hosted-indexer.ts:1104-1119 | exactly when a run moves the floor, and that it changes nothing else |
| IndexerReorgs.StableRunIsSafe | server/src/hosted-indexer.ts:1065-1100 | while L1 answers one chain, a run with no cursor above the common ancestor meets the guard |
| IndexerReorgs.SteadyRunsCover | server/src/hosted-indexer.ts:1065-1119 | over runs each answered by one chain, L1 reorganised between them at will, coverage holds while no run finds a cursor above the common ancestor |
| IndexerReorgs.ReorgCoverageIff | server/src/hosted-indexer.ts:1066-1096 | after a reorganisation a source is covered if and only if it had not reached the replaced block or the run stops before it ingests again |
| IndexerExamples.ReplacedBranchLeavesHole | server/src/hosted-indexer.ts:1066-1096 | a covered source whose next run ends with two blocks never ingested and its cursor past them |
| ApproverTree.BuildLevels | server/src/demo-runtime-approvers.ts:31-50 | the level loop ends and builds every halving |
| ApproverTree.Build | server/src/demo-runtime-approvers.ts:25-61 | the levels and one proof per member, level by level and member by member |
| ApproverTree.Climb | server/src/demo-runtime-approvers.ts:51-59 | the inner loop's sibling and halved index at each level |
| ApproverTree.PaddingIsLeast | server/src/demo-runtime-approvers.ts:29-39 | the leaves are the members' and zero padding, up to the least power of two from two that holds them |
| ApproverTree.LastLevelIsTop | server/src/demo-runtime-approvers.ts:43-50 | the last level is the single top node |
| ApproverTree.EveryMemberIsProved | server/src/demo-runtime-approvers.ts:25-61 | for every count, each member's leaf folded with its proof gives the one root, and the proof is as long as the tree is high |
| ApproverTree.OnlyTheMemberIsProved | server/src/demo-runtime-approvers.ts:51-59 | with an injective hash, an index accepts its own leaf and proof and no others |
| RoomNames.WithRoomSuffix | server/src/demo-room-names.ts:59-64 | the suffix is never trimmed and the name fits 80 characters |
| RoomNames.SuffixKeepsBase | server/src/demo-room-names.ts:59-64 | the base is whole where both fit and otherwise loses only its end and the spaces before the cut |
| RoomNames.CountedIsInjective | server/src/demo-room-names.ts:77-80 | counted names differ whenever their indices do, even after trimming different bases |
| RoomNames.UniqueRoomName | server/src/demo-room-names.ts:72-81 | the two loops end with the first free name drawn, or with none free the first free counted one |
| RoomNames.Rooms.CreateRoom | server/src/demo-controller.ts:308-361 | pushes exactly the chosen name or refuses, and keeps names distinct |
| RoomNames.NamedIff | server/src/demo-controller.ts:318-335 | a room is named exactly when its trimmed name is 3 to 80 long and, if kept, free; which name it gets |
| RoomNames.TrimIsExact | server/src/demo-controller.ts:318 | trimming removes the spaces at both ends and nothing else |
| RoomNames.CreatedNamesAreDistinct | server/src/demo-controller.ts:318-361 | over any requests and draws no two rooms share a name |
| Faucet.FaucetService.Prune | server/src/faucet.ts:129-139 | which drips and addresses are forgotten |
| Faucet.FaucetService.Reserve | server/src/faucet.ts:76-97 | the refusal, or the reservation in both records |
| Faucet.FaucetService.RollBack | server/src/faucet.ts:112-118 | the address and the last drip of that moment are removed |
| Faucet.RollbackIsExact | server/src/faucet.ts:112-118 | removing the last equal timestamp is removing the failed reservation |
| Faucet.EveryHourIsBudgeted | server/src/faucet.ts:76-118 | in any hour the reservations not rolled back number at most the hourly budget |
| FaucetOutcomes.DripServedIff | server/src/faucet.ts:69-101 | after any run a drip is served exactly when its address has cooled down, the hour's standing drips leave room and not too many addresses are cooling |
| Faucet.RollbackForgetsIff | server/src/faucet.ts:112-118 | a rollback forgets a cooling address exactly when another live reservation of it is still cooling |
| Faucet.FailureBreaksCooldownIff | server/src/faucet.ts:76-118 | after a failure with room in both records, some next drip breaks the cooldown if and only if another live reservation of that address is still cooling |
| Faucet.CooldownHolds | server/src/faucet.ts:81-84 | when failures come back in time, live reservations of one address are a cooldown apart |
| Faucet.LateFailureBreaksCooldown | server/src/faucet.ts:112-118 | a concrete run in which a late failure lets two drips through one tick apart |
| RateLimiter.Buckets.TakeTokens | server/src/quota.ts:36-53 | the method's answer and whole new state |
| RateLimiter.MapIsBounded | server/src/quota.ts:38-42 | the map never exceeds a positive ceiling, whatever keys call |
| RateLimiter.AcceptedCostIsBounded | server/src/quota.ts:36-53 | from any reachable state, an unevicted key takes at most the burst plus the rate times the elapsed time |
| RateLimiter.AcceptedIff | server/src/quota.ts:36-53 | while a key is not evicted its next call is accepted if and only if it fits the burst and no window since one of its calls would exceed the burst plus what time added |

## Left out

- Persistence failures: completing an attempt and saving it is one step; the path where a failed save runs the failure step on an accepted record is not modelled.
- `CheckpointState.DemoRoom.AddAction`: the phase check, the building of the move and the idempotency key around the push; the first two are in `RoomRuns.Next`.
- `CheckpointState.DemoRoom.Restore`: the repair of persisted jobs beside the rooms.
- `RoomNames.Rooms.CreateRoom`: the template, idempotency and deadline checks around the choice of a name.
- Unsigned moves in a room whose moves browsers sign: the step relation takes none, since a batch with one has no envelopes to replay.
- `FixtureSigning.SignFixtureCheckpointActions`: names its moves by id, so a move absent from the log is refused as absent where the source would first look at its envelope, signer and gas; the moves of an attempt are always in the log.
- Hosted admission ids: a submission brings any id, which covers the source's derivation from the archive, the cursor and the log's high water.
- What a prover answers is the batch index and opening root of its journal; proofs, seals and verification are not modelled.
- Jobs, events, idempotency keys and the phases a worker publishes; closing a room is allowed at any time, which covers more runs than the controller permits.
- Identity of record objects: closures that hold a checkpoint record hold its index here; actions and records are values in sequence fields of `DemoRoom`.
- Dates are millisecond integers and error texts are omitted.
- Signing, hashing and ABI bytes are symbolic: a fixture envelope is its transaction fields, a transaction hash its bytes, a tree hash any function.
- `ProvingSlot.WaitIsBounded`: bounds the wait in head steps; a queue report that never settles keeps its own caller, and those behind it, waiting, as in the source.
- Settlement watcher: real time is one boolean per poll, and the lookup of a receipt by hash is the provider's answer.
- Policy: only JSON values a parser produces, with arrays no longer than JavaScript allows; `liabilitiesHashV5` and the Keccak call itself.
- Admission: rate limits are one boolean; signature recovery, room-id syntax and archive validation are answers; the last batch's index and cursor stand for the fields they come from.
- Admission queue contents do not survive a restart in the source, so `AdmissionGuarantees.NoReceiptIsLost` speaks of receipts returned since the last one.
- Hosted admission: leases and fencing appear only as status changes and failures; deleting old acknowledged rows is not modelled, and would let a forgotten id be bound anew.
- Indexer: decoding, reconciliation, blobs and billing are booleans of a run; hashes are compared in lower case; sources are a fixed list.
- Characters are code points here and UTF-16 units in JavaScript, which matters only for room names with characters outside the basic plane.
- `ApproverTree.Build`: the floating-point logarithm is the exact one.
- Token amounts are exact reals.
- Hosted runtime leases, capacity control, blob publication, routes, configuration and contract deployment.
