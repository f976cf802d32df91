# Verified model of the epoch manager

The epoch manager has two services. The epoch releaser cuts the blocks of a source chain into
fixed-size epochs and sends each one to a contract. The force-consensus service watches that
contract's events and, once an epoch's submission window has passed, sends one transaction for each
project that was submitted but not finalized. This project models both, with the retry loop over RPC
endpoints below them, and proves what they keep on every run.

Run `dafny verify dfyconfig.toml` with Dafny 4.11.

## How it is laid out

| file | content |
|---|---|
| `Arith.dfy`, `Wrappers.dfy` | a few facts about multiplication and division, `Option` |
| `Chunks.dfy` | cutting a block range into chunks |
| `ReleaseMachine.dfy` | the releaser, contract and account as a state machine over atomic steps |
| `ReleaseDrift.dfy`, `ReleaseNonce.dfy` | how far cursor and nonce can drift from contract and account |
| `ReleaseDriftExact.dfy` | from which starts the drift bound holds, and that it is reached |
| `ReleaseLog.dfy` | what every list of release attempts looks like, the first release |
| `ReleaseSchedule.dfy` | fault-free runs do not depend on when the head is polled |
| `ReleaseRecovery.dfy` | how the releaser gets back in line once faults stop |
| `EpochGenerator.dfy` | the releaser as a class; every execution is a run of the state machine |
| `TaskLocks.dfy` | transaction tasks, semaphore, writer lock and nonce as interleaved actions |
| `TaskProgress.dfy` | how many actions all tasks together can still take, and who is stuck at rest |
| `ForceTables.dfy` | event tables, sweeps and cleanups, interleaved with the tasks |
| `ForceTasks.dfy` | the laws of tasks and locks over the life of a process, whatever events are seen |
| `TaskScripts.dfy` | what each task has done when it has finished: tries, receipt, resets, notification |
| `ForceSafety.dfy`, `ForceRuns.dfy` | the invariants of the tables and calls, and their laws over the life of a process |
| `BlockCursor.dfy` | which blocks one process scans or skips |
| `BlockCoverage.dfy` | which blocks all processes together scan or skip, across failures and crashes |
| `EventScan.dfy` | block cursor and event tables together: what one process sees of the chain |
| `ServiceLife.dfy` | the force-consensus service over all its processes |
| `ServiceCalls.dfy`, `ServiceReleases.dfy` | how often each project is called and what becomes of each release, over all processes |
| `ServiceRuns.dfy` | runs that reach these bounds or lose a release |
| `ForceConsensus.dfy` | the force-consensus service as a class, from one await to the next |
| `RpcRetry.dfy` | the retry loop over several endpoints |

A run is a finite list of events. The environment chooses all of them: what becomes of each
transaction, which reads raise, what head is seen, when a process is restarted, which task moves
next. A law over whole runs holds after every prefix. Runs of the releaser, of the block cursor and
of `ServiceLife` include restarts; runs of `ForceTables`, on which `ForceTasks` and `ForceRuns`
rest, are the life of one process. The two classes keep a ghost `history`;
`Valid()` says that the fields are what the state machine computes from it, and each method says
which events it adds.

## Environment assumptions

- The contract's source is not part of this model. It is empty or has a last end block. It accepts
  `(b, e)` only when `e - b + 1` is its epoch size and, if it is not empty, `b` is one past its last
  end. It may reject any epoch for reasons of its own.
- There is one releaser. A transaction is accepted, reverted or discarded for good before the next
  send or contract read.
- A transaction is mined only when it carries the account nonce (section 6 of the Ethereum Yellow
  Paper). A receipt exists only for a mined transaction.
- "Replacement transaction underpriced" during the first release means that the earlier attempt
  with this nonce was included and released this epoch (the reading of the comment at
  epoch_generator.py:190).
- The writer lock of aiorwlock is reentrant for its own task, and only its owner's releases free it.
- The watched contract releases each epoch once, and fetching the logs of a block range returns
  those of its blocks. The laws of `ForceRuns` ask that no release is seen twice
  (`UniqueReleases`); `ReleasesSeenOnce` derives this for every process. The clock never goes back.
- Heads seen by the block cursor never go down, and a stored cursor is not negative. Configured sizes (`height`, `max_block_buffer`)
  are at least 1.

## What turned out differently from what the code or its documentation suggests

- A contract whose last epoch ends at block 0 is read as empty (epoch_generator.py:97). Recovery then
  leaves the cursor where it is; `RecoveryExact` says exactly when it realigns. The drift bound
  holds on every run if and only if `DriftSafe` holds of settings and contract at the start
  (`BoundedDriftExact`). `GenesisEndReached` gives a run from an empty contract, possible with
  epochs of one block, and `NeverRealigns` says that no continuation of that process gets back in
  line.
- The local nonce can fall one behind the account nonce: a first-release attempt that is mined but
  raises leaves it there until a reset. `NonceBandExact` says exactly in which runs, and
  `BehindInMainLoop` carries one into the main loop.
- A retry of the first release can ask for an epoch the contract has already taken. `BoundedDrift`
  puts it exactly one epoch behind.
- docs/diagrams/force_consensus.puml:49-54 draws the cleanup inside the loop over epochs. In the code
  it comes after the loop (force_consensus.py:272-275), so a sweep deletes the tables of its last
  epoch only; `CleanLeavesOthers` states it. No law here says that processed epochs are all cleaned.
- The decorator gives nothing back when the body raises (utils/helpers.py:47-50). The task then owns
  the writer lock for good and no other task gets into a locked body again (`FrozenForever`).
- A block cursor of 0 is taken for "no cursor" (force_consensus.py:306). `EachBlockOnce` says exactly
  when a process misses blocks, `ZeroCursorLosesBlocks` gives a run, and `CoverageExact` counts
  this case in with the others.
- Coverage across crashes fails when a process is lost before the first cursor is persisted and the
  head has moved on: the next process starts afresh at its own head (force_consensus.py:315-316).
  `LostAfterScan` and `LostAfterFailure` give runs. `CoverageExact` says when nothing is left out,
  `SafeFirstProcess` that this is so when no process is lost before the first persist.
- Pending epochs live in memory only. A release on record is forgotten exactly when the process dies
  after its block is persisted and before a sweep finds it due, unless an earlier process has swept
  it (`LostExactlyWhenDropped`, `FateOfARelease`); `CrashDropsRelease` gives a run. Scanning a block is
  not enough to have its releases on record: while nothing is stored, a crash forgets those of the
  blocks scanned so far, and the next process starts above them (`CoveredButForgotten`).
- A sweep can find an epoch due before the fetch that saw it is persisted. If the process is then lost,
  the next one may call the same projects again. `CallsAreRedosOrOneMore` bounds the calls by the
  number of such losses from both sides, `CallsAreTight` reaches the upper bound for every number,
  and `PromptRuns` shows that it takes a clock that passes the whole submission window within one
  turn.
- The retry loop compares counters with `==` (helpers/rpc_helper.py:48). With a repeated URL it can
  run for ever; `EndsExactlyWhen` says exactly when it ends, and `FirstPasses` follows the loop
  itself on any input, also where it does not end.

## Model

| member | source | states |
|---|---|---|
| Chunks.Cut | utils/helpers.py:3-12 | the chunks concatenate to exactly start..stop, are adjacent and numbered from 1, all but the last hold n blocks, there are ceil(length / n); the early return is never taken |
| Chunks.RegularCovers | utils/helpers.py:5-12 | a list of adjacent chunks from start to stop concatenates to the whole range |
| Chunks.RegularCount | utils/helpers.py:5-12 | such a list has ceil(length / n) chunks |
| ReleaseMachine.MainOutcomes | epoch_generator.py:375-436 | what may become of a main-loop attempt, written out: accepted only for the contract's next epoch at the account's nonce, mined only at that nonce, a receipt only when mined; anything else may happen |
| ReleaseDrift.BoundedDrift | epoch_generator.py:361-475 | from every safe start, on every run, the next main-loop block is 0, h, ..., 9h past the contract's next block, exactly there while an attempt is forced, and a first-release retry lies exactly one epoch behind |
| ReleaseDriftExact.BoundedDriftExact | epoch_generator.py:95-109 | the bound holds on every run if and only if the contract does not end at block 0 or the releaser begins at block 1, and no first release can make it end at block 0 |
| ReleaseDrift.NonceGoesToZero | epoch_generator.py:393-420 | from whatever start, every receipt with status 1 and every completed recovery leaves the nonce at the account's, and force is set just after a failure |
| ReleaseDrift.DriftGoesToZero | epoch_generator.py:393-420 | on every run from a safe start the cursor is then exactly the contract's next block, too |
| ReleaseDrift.EmptyContract | epoch_generator.py:375-467 | from whatever start, while the contract is empty, every attempt of this process waited for its receipt, failed, and was for the same first epoch; the cursor has not left its start |
| ReleaseDrift.FirstEpochIsConfigured | epoch_generator.py:283-286 | on every run, with a configured begin block: while the contract is empty every attempt of every process is for the h blocks from exactly that block on |
| ReleaseDrift.HandlerEndsProcess | epoch_generator.py:393-467 | a main-loop attempt ends the process if and only if its exception handler raises; the handler runs when the call raised or recovering from a receipt without status 1 did |
| ReleaseDrift.RecoveryExact | epoch_generator.py:95-109 | recovery realigns the cursor with a non-empty contract if and only if its last end is not 0 or the cursor is at block 1 |
| ReleaseDriftExact.GenesisEndReached | epoch_generator.py:97-109 | from an empty contract outside the safe starts, a run that ends forced at block 2 with the contract at block 0 |
| ReleaseDriftExact.NeverRealigns | epoch_generator.py:97-109 | from there every continuation of the process keeps cursor, force flag and contract as they are: no attempt is ever accepted again |
| ReleaseDriftExact.DriftIsTight | epoch_generator.py:379-475 | from any contract that holds an epoch past block 0, a run that puts the cursor exactly 9h ahead of the contract and the nonce 9 ahead of the account |
| ReleaseDrift.AcceptedDrift | epoch_generator.py:424-436 | an accepted epoch brings the cursor to the contract's next block |
| ReleaseDrift.LostDrift | epoch_generator.py:422-436 | an unnoticed loss keeps the drift a multiple of h and within its bound |
| ReleaseNonce.NonceBand | epoch_generator.py:379-467 | on every run the local nonce is between 1 behind and 9 ahead of the account nonce, and not ahead in the first release or while forcing |
| ReleaseNonce.NonceBandExact | epoch_generator.py:138-211 | a run lets the nonce fall behind if and only if a first-release attempt is mined, raises without a reset, and is retried |
| ReleaseNonce.BehindInMainLoop | epoch_generator.py:185-191 | a run that enters the main loop with a used nonce |
| ReleaseLog.AttemptsAreSafe | epoch_generator.py:138-475 | on every run each attempted epoch has exactly h blocks, ends no later than head - offset for the head that was read last before the attempt, begins right after the previous one unless that failed or the process restarted; after a main-loop failure the next attempt is checked, and a checked attempt counts as done only with status 1; an attempt is at high gas exactly after a main-loop failure, or in the first release after a collision or timeout whose reset went through until a call returns, never at the start of a process; and which nonce follows which where no reset comes between |
| ReleaseLog.TenAttemptsIncludeACheck | epoch_generator.py:379-424 | any ten consecutive attempts of a run, across restarts, include one that waits for its receipt |
| ReleaseLog.CheckedExactlyThen | epoch_generator.py:379-424 | on every run an attempt waits for its receipt if and only if it is a first release, is forced, or follows a multiple of ten attempts of its process |
| ReleaseLog.FirstReleaseHandover | epoch_generator.py:127-209 | from whatever start, at most the configured number of tries; on success the contract's last epoch is the one asked for and the main loop begins one block later |
| ReleaseSchedule.ScheduleIndependence | epoch_generator.py:315-374 | a fault-free run at rest has released exactly the first max(0, floor((maxHead - offset - begin + 1) / h)) epochs, for heads in any order |
| ReleaseSchedule.SameTopSameEpochs | epoch_generator.py:315-374 | two fault-free schedules with the same highest head release the same epochs |
| ReleaseSchedule.RoundResult | epoch_generator.py:357-475 | a fault-free round moves the cursor by h * floor((end - begin + 1) / h) and leaves fewer than h blocks |
| ReleaseSchedule.SchedulesExist | epoch_generator.py:315-475 | from an aligned state every list of head reads has a fault-free run that comes to rest |
| ReleaseRecovery.SelfStabilises | epoch_generator.py:379-475 | from every main-loop state of every run from a safe start, once every send the chain can take is accepted and reported and recovery goes through, ten sends bring cursor and nonce in line with contract and account, whatever becomes of the sends the chain cannot take; from then on every send is accepted and what is released depends on the highest offset head alone |
| ReleaseRecovery.HealingExists | epoch_generator.py:315-475 | from every such state there is a run of this kind with any number of sends |
| ReleaseRecovery.CheckAligns | epoch_generator.py:393-467 | one such send that waits for its receipt, or that fails, is enough; any other brings the next checked one closer |
| EpochGenerators.EpochGenerator.FetchEpochFromContract | epoch_generator.py:95-109 | one past the last end, or -1 when the contract reads as empty |
| EpochGenerators.EpochGenerator.ResetNonce | epoch_generator.py:111-125 | takes over the account nonce unless it is 0 |
| EpochGenerators.EpochGenerator.Start | epoch_generator.py:279-286 | the process begins one past the contract's last end, or at the configured block when there is none or it is 0, with the account nonce; or it dies of a raising first read |
| EpochGenerators.EpochGenerator.AttemptFirst | epoch_generator.py:138-209 | the transaction handed over, and counter, nonce, force flag and result of one first-release attempt, fault by fault |
| EpochGenerators.EpochGenerator.TryFirst | epoch_generator.py:138-209 | one first-release attempt is one step of the machine; when done, the contract's last end is the epoch's |
| EpochGenerators.EpochGenerator.ReleaseEpochWithRetry | epoch_generator.py:127-133 | between one and the configured number of attempts; done means begin is one past the released epoch, raised means the process is over |
| EpochGenerators.EpochGenerator.WaitAndReleaseFirstEpoch | epoch_generator.py:211-267 | the event it takes and the sends after it; a non-zero result is one past the contract's last end and past the offset head; 0 means the process exits |
| EpochGenerators.EpochGenerator.TrySend | epoch_generator.py:375-436 | the try block for one chunk: checked exactly at every tenth attempt or when forced, at high gas exactly when forced; what becomes of nonce, flag and cursor, and when the exception handler takes over |
| EpochGenerators.EpochGenerator.ReleaseChunk | epoch_generator.py:375-467 | one main-loop attempt with its two send paths and two recovery paths is one step of the machine |
| EpochGenerators.EpochGenerator.Round | epoch_generator.py:357-475 | a round is one head read followed by sends; whichever way the loop exits, the cursor is the machine's |
| EpochGenerators.EpochGenerator.PollOnce | epoch_generator.py:315-475 | one turn of the main loop: unset begin, too few blocks, or a round with its fault-free effect |
| EpochGenerators.EpochGenerator.Loop | epoch_generator.py:315-475 | any list of head reads is taken in order, all of them unless the process ends before |
| EpochGenerators.EpochGenerator.Begin | epoch_generator.py:279-313 | a start, then the first release if one is due; afterwards either the process is over or it stands in the main loop |
| EpochGenerators.EpochGenerator.Run | epoch_generator.py:279-475 | any sequence of heads from a start on is a run of the machine with these head reads, all of them unless the process ends before, and from a safe start ends within the drift bound |
| TaskLocks.ApplyPermits | utils/helpers.py:27-53 | every action of every task keeps free permits + calls in progress + raised bodies at 20 |
| TaskLocks.ApplyLock | utils/helpers.py:28-46 | every action keeps: at most one task is in a body, it owns the lock, the lock is held once for it and once per raised body |
| TaskLocks.ApplyNonce | force_consensus.py:158-188 | every action keeps the nonces of successful sends since the last reset consecutive, and the running body's nonce current |
| TaskLocks.ApplySent | force_consensus.py:158-178 | every action keeps at most one successful transaction per task, none before it |
| TaskLocks.ApplyHanded | force_consensus.py:158-178 | every action keeps: all transactions of a task that reached the chain, also those whose body then raised, carry one nonce; a task that may still send another holds the lock for good at that nonce |
| TaskLocks.RaiseLeaks | utils/helpers.py:47-50 | a raising body leaves permit and lock with its task |
| TaskLocks.LeakFreezesTheLock | utils/helpers.py:47-50 | after a raise no action changes the lock's owner, and only the owner enters or leaves a body |
| TaskLocks.StuckMeansDone | utils/helpers.py:27-53 | while nothing has raised, a state in which nobody can move has all tasks finished, all permits and the lock back |
| TaskLocks.ApplyRank | force_consensus.py:190-244 | every action strictly lowers the number of actions its task can still take and leaves other tasks alone |
| TaskProgress.AtRestExact | utils/helpers.py:27-53 | when nobody can move but by raising, all permits and the lock are back if and only if no body has raised, and then all tasks have finished |
| TaskProgress.StuckAfterRaise | utils/helpers.py:27-53 | after a raise, when nobody can move: the owner of the lock, which can re-enter it, has finished or waits for a permit when none is left; every other task has finished, waits for such a permit, or for the lock |
| ForceTables.CleanLeavesOthers | force_consensus.py:272-275 | cleanup empties the tables of the loop's last epoch and leaves all other epochs as they are |
| ForceTables.TouchedSame | force_consensus.py:262 | reading the tables creates entries but changes no content |
| ForceRuns.ForcedIsHistory | force_consensus.py:246-268 | on every interleaving in the life of a process a sweep calls exactly the projects with a submission seen so far minus those with a finalization seen so far, for the epochs due in it |
| ForceRuns.AtMostOnceNeverEarly | force_consensus.py:246-275 | over the life of a process each project and epoch gets at most one call, one task and one successful transaction, only after release time + window * block time + 30 has passed; all its transactions that reached the chain are by that task and carry one nonce |
| ForceRuns.CalledAsOftenAsDue | force_consensus.py:249-268 | a sweep calls a project not yet finalized exactly as often as its epoch is due in it, whatever the epoch ids |
| ForceRuns.DueLeavesPending | force_consensus.py:249-255 | an epoch due when a sweep begins leaves the pending set in that sweep and never returns in that process |
| ForceRuns.NoReleaseForgotten | force_consensus.py:108-113 | in the life of a process, whatever the epoch ids, each release seen is pending or was due in a sweep |
| ForceTasks.LockLaws | utils/helpers.py:27-53 | on every run, whatever events are seen: mutual exclusion, consecutive nonces, permit conservation, and as many tasks for a call as calls were made |
| ForceTasks.NoRaiseNoLoss | force_consensus.py:267-270 | on every run, once nothing can move all permits and the lock are back if and only if no body has raised, and then every task has finished |
| ForceTasks.WhoIsStuckAfterARaise | utils/helpers.py:47-50 | the same on every run |
| ForceTasks.CleanUpExact | force_consensus.py:270-275 | on every run a cleanup comes once for a sweep, after all its tasks have finished; it empties the tables of the sweep's last epoch and changes nothing else |
| ForceTasks.CleanedAreFinished | force_consensus.py:270-275 | a sweep that has cleaned up has seen all its tasks finish |
| TaskScripts.FinishedTasksAreThrough | force_consensus.py:158-244 | on every run a finished task has had fewer failed tries than configured, then a transaction whose receipt was fine or not looked at; or it went to its handler, after max(1, retries) failed tries, an unavailable receipt, or a failed one and a try to reset the nonce; and there its notification raised, or another reset was tried |
| TaskScripts.BodiesSendOrReset | force_consensus.py:164-188 | on every run a body that runs to its end is the task's transaction exactly when nothing but failed tries came before it, and then the nonce goes up by one; otherwise it is a reset, and the nonce is then the account's |
| ForceTasks.EveryTaskFinishes | force_consensus.py:267-270 | every run in which no body has raised can be continued without raising until every task has finished and all permits and the lock are back |
| ForceTasks.ActsAreBounded | force_consensus.py:190-268 | in every run, however tasks interleave, the number of their actions is at most that of the created tasks times what one fresh task can take |
| ForceTasks.FrozenForever | utils/helpers.py:47-50 | after a raise the lock stays with its task in every continuation and no transaction of another task reaches the chain |
| ForceTasks.TaskIsBounded | force_consensus.py:190-244 | every task takes a bounded number of actions in every run |
| ForceConsensusService.ForceConsensus.FoldEvent | force_consensus.py:108-117 | one log entry updates one table as the system does, also a repeated one |
| ForceConsensusService.ForceConsensus.GetEvents | force_consensus.py:108-117 | folding the fetched logs adds exactly these sightings to the history |
| ForceConsensusService.ForceConsensus.CollectDue | force_consensus.py:247-253 | with a clock read for every pending epoch: all that are due at the first reading are collected, none that is not due at the last, each once |
| ForceConsensusService.ForceConsensus.CallsForEpoch | force_consensus.py:261-268 | appends one call per project submitted and not finalized |
| ForceConsensusService.ForceConsensus.BuildTasks | force_consensus.py:260-268 | the task list holds exactly the calls of all epochs, with their multiplicity |
| ForceConsensusService.ForceConsensus.Sweep | force_consensus.py:246-268 | the first half of the sweep is the system's sweep over the due epochs, with the calls of the tables before it |
| ForceConsensusService.ForceConsensus.CleanUp | force_consensus.py:272-275 | the second half is the system's cleanup |
| ForceConsensusService.ForceConsensus.TakePermit | utils/helpers.py:28 | acquiring the semaphore is the system's action |
| ForceConsensusService.ForceConsensus.TakeLock | utils/helpers.py:29-34 | acquiring the writer lock, or returning the permit when that raises |
| ForceConsensusService.ForceConsensus.FinishTransaction | force_consensus.py:164-178 | a successful transaction uses up one nonce and gives back permit and lock |
| ForceConsensusService.ForceConsensus.FinishReset | force_consensus.py:180-188 | a completed reset sets the nonce to the account's and gives back permit and lock |
| ForceConsensusService.ForceConsensus.RaiseFromBody | utils/helpers.py:47-50 | a raising body, whether or not its transaction has reached the chain, changes nothing but the history |
| ForceConsensusService.ForceConsensus.AfterReceipt | force_consensus.py:194-221 | after its transaction a task is through when the receipt is fine or not looked at, resets the nonce when it reports a failure, and goes to its handler when it cannot be had |
| ForceConsensusService.ForceConsensus.AfterNotification | force_consensus.py:239-244 | in the handler a task resets the nonce once the notification has gone through, and ends when that raises |
| ForceConsensusService.ForceConsensus.Turn | force_consensus.py:305-351 | one turn of the main loop moves cursor and stored cursor as the cursor model does and folds in exactly the entries of the scanned range; a process lost inside the fetch or after it leaves only the stored cursor |
| ForceConsensusService.SyncedSeesOnce | force_consensus.py:88-117 | an object that is in step with the chain has seen exactly the entries of the ranges its process scanned, each release at most once |
| EventScan.ReleasesSeenOnce | force_consensus.py:305-349 | a process sees each release at most once, if the chain releases each epoch once |
| EventScan.EntriesAreHandled | force_consensus.py:108-119 | every log entry between the first and the current cursor of a process that forgets no cursor was seen unless its block was skipped a buffer behind the head; each release among them is pending or was due in a sweep |
| ServiceCalls.CallsAreRedosOrOneMore | force_consensus.py:88-119 | over all processes, whatever is lost at any step, a project and epoch is called at least as often as a process is lost between the call and the persisting of the fetch that saw the release, and at most once more |
| ServiceCalls.AtMostOneCall | force_consensus.py:88-119 | so two calls need such a loss, and two such losses make two calls |
| ServiceCalls.PromptRuns | force_consensus.py:110-119 | there is no such loss, and at most one call, when every sweep ends within window * block time + 30 of the fetch it runs beside |
| ServiceReleases.LostExactlyWhenDropped | force_consensus.py:246-255 | on every run over all processes, a release whose block is persisted was swept by some process or is pending, if and only if no process was lost while it kept it pending, with no sweep of it by an earlier one |
| ServiceReleases.FateOfARelease | force_consensus.py:305-351 | on every run, whatever was stored at the start, for every release of the chain up to the stored cursor: above the anchor the same holds unless its block was skipped; at or below it the release is not on record, and was handled only if an earlier process swept it |
| ServiceReleases.AnchorStays | force_consensus.py:306-316 | the anchor, the cursor of the latest turn that found none in memory nor stored, or the one stored at the start, does not move while a cursor is stored |
| ServiceRuns.CrashDropsRelease | force_consensus.py:249-255 | a run in which a crash loses a persisted release for good |
| ServiceRuns.CallsAreTight | force_consensus.py:119 | for every n a run with n such losses in which one project and epoch is called n + 1 times |
| ServiceRuns.CoveredButForgotten | force_consensus.py:315-351 | a run in which a scanned block lies past the first cursor and no turn loses blocks, yet its release is forgotten, as it lies at the anchor |
| BlockCursor.TouchesAtMostOnce | force_consensus.py:305-349 | in every process of every run each block is scanned or skipped at most once, only past the stored cursor or else its first head - 1, and only up to its cursor; ranges are at most the buffer long; skipped blocks are at least a buffer below the head |
| BlockCursor.EachBlockOnce | force_consensus.py:305-349 | a process scans or skips each of these blocks exactly once if and only if no turn of it takes a cursor of 0 for none: nothing stored, head above block 1 |
| BlockCursor.NeverForgets | force_consensus.py:306-316 | a process that reads only heads above block 1 does not |
| BlockCursor.BeganStays | force_consensus.py:305-323 | the cursor a process began with stays on record as long as it lives |
| BlockCoverage.NothingLeftOut | force_consensus.py:306-351 | for any heads and crashes at any step, no block up to the persisted cursor is both unscanned and unskipped, counted from the latest turn that lost blocks, or from the first cursor when none did |
| BlockCoverage.CoverageExact | force_consensus.py:306-351 | for any heads and crashes at any step, every block from the very first cursor up to the persisted one was scanned or skipped if and only if no turn with nothing in memory nor stored started above what had been scanned or skipped |
| BlockCoverage.ReachIsTheTop | force_consensus.py:318-349 | what such a turn is compared with is the highest block scanned or skipped so far, or the first cursor |
| BlockCoverage.FirstCursor | force_consensus.py:306-316 | the first cursor is the one stored at the start, else one below the head of the first turn, for the whole run |
| BlockCoverage.SafeFirstProcess | force_consensus.py:306-351 | if no process is lost and no cursor of 0 forgotten before the first persist, no turn loses blocks, whatever crashes come later, and the counting base is the first cursor |
| BlockCoverage.LostAfterScan | force_consensus.py:315-351 | a run that loses a process after its scan and persists block 50 with blocks 11 to 49 neither scanned nor skipped |
| BlockCoverage.LostAfterFailure | force_consensus.py:315-351 | a run that loses a process after a failed scan and so blocks 10 to 49 |
| BlockCoverage.ZeroCursorLosesBlocks | force_consensus.py:306-316 | a run of one process that forgets a cursor of 0 and so loses blocks 1 to 4 |
| BlockCoverage.ForgottenNotLost | force_consensus.py:306-316 | a run in which a process forgets its cursor and yet no block is lost over all processes |
| BlockCoverage.BaseStays | force_consensus.py:307-316 | once a cursor is persisted the counting base never moves |
| RpcRetry.OnePass | helpers/rpc_helper.py:54-71 | one post per URL in order until the first that is answered, counters kept; what counts as an answer is said of the replies alone |
| RpcRetry.SyncPostJsonRpc | helpers/rpc_helper.py:42-71 | posts are a prefix of the repeated list, the result is the first answer, bail-out at the first pass whose exit test holds |
| RpcRetry.EndIsUnique | helpers/rpc_helper.py:47-71 | what is returned is determined by the inputs |
| RpcRetry.FirstPasses | helpers/rpc_helper.py:47-71 | the loop followed for n passes on any input: it returns within them if and only if it ends in one of them, otherwise it has posted to all URLs n times in vain; where it is not to end it has not returned for any n |
| RpcRetry.EndsWithTheFirstAnswer | helpers/rpc_helper.py:54-71 | what is returned is the answer to the first post that did not fail, whatever it holds; for eth_getBlockByNumber empty results are passed over and a missing one raises; it bails out only if there was none |
| RpcRetry.ReturnsExactlyWhen | helpers/rpc_helper.py:47-71 | the condition under which it is to end is that there is a result it returns |
| RpcRetry.EndsExactlyWhen | helpers/rpc_helper.py:45-71 | with a limit of at least 1 the loop ends if and only if the list is empty, some post succeeds, or all distinct URLs occur m times and m divides the limit |
| RpcRetry.PassesToBail | helpers/rpc_helper.py:47-53 | it bails out after exactly limit / m passes |
| RpcRetry.DistinctPosts | helpers/rpc_helper.py:47-71 | with distinct URLs the posts are a prefix of the list repeated `limit` times |
| RpcRetry.DistinctBail | helpers/rpc_helper.py:47-53 | with distinct URLs it bails out exactly when the first `limit` rounds give nothing, after `limit` posts to each |
| RpcRetry.EthBlockNumber | helpers/rpc_helper.py:73-82 | on any input, followed for n passes: it is done exactly when the loop ends in one of them; a number comes from the first post that was answered; otherwise every post failed or that answer held no number |

## Left out

- SyncPostJsonRpc: requires that the loop ends at all, because a Dafny method must; `FirstPasses` follows the same loop on every input, and `EndsExactlyWhen` says which ones end.
- The decorator's calls are cut at their awaits instead of being one method, because other tasks run there.
- The body of `_call_force_complete_consensus` is a task's program counter; the random 1% receipt check is a free choice.
- Notifications, logging, sleeping and signals; a raising notification counts as a raising recovery.
- Partial recovery: re-reading nonce and last epoch succeeds or raises as a whole, which leaves the same state because a raise is followed by a full recovery or the end of the process.
- rpc.py, utils/rate_limiter.py, utils/redis_conn.py, utils/transaction_utils.py, utils/notification_utils.py: plumbing, signing and I/O; sends, receipts and reads are choices of the environment.
- `auto_retry` and `rpc_eth_getblock_by_number`: not used by the services modelled here; `construct_one_time_rpc` only fills in the request.
- Memory held for processed epochs and liveness after a raising body: the code guarantees neither.
