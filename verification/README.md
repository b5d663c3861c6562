# cherry-pit: a verified model of the stateful core

This project models, in Dafny 4.11, the parts of cherry-pit that carry a protocol or hard arithmetic, and proves
what they keep over every input, every interleaving or every run.

| file | component |
|---|---|
| `EventStore.dfy`, `InMemoryEventStore.dfy` | envelopes, stream validation, the optimistic event store, causal chains |
| `SchedulerState.dfy`, `DurableScheduler.dfy` | replay of the scheduler stream; the driver with its two-store write and recovery |
| `SchedulerProtocol.dfy` | any number of drivers, interleaved between store calls, each of which may crash |
| `Merger.dfy` | the single-task command loop against a map from key to event list |
| `ProjectionStore.dfy` | snapshot and checkpoint records on an append-only log, with crashes and unknown outcomes |
| `BudgetGate.dfy`, `TokenBucket.dfy` | the two pacing primitives as machines of atomic accesses |
| `WorkQueue.dfy`, `BatchTracker.dfy` | the deduplicated queue, sequential and interleaved; the completion tracker |
| `CanonicalJson.dfy` | the canonical printer and the text a snapshot signature hashes |
| `CfgPredicate.dfy` | the three-valued `cfg` evaluator |

## How it is modelled

* Code that updates state in place is a class whose methods are proved against functions on values. Concurrent code
  is a machine: a state, actions of one atomic access each (a load, a compare-exchange, a store, a notification, one
  call to a store or a lock), and callers that keep whatever they read, however stale. `IsRun` says which sequences of
  states are runs, and the theorems hold at every state of every run.
* 64-bit limits, saturation and wrap-around are written out. Clocks, generated ids, decoder results, bus and disk
  outcomes are parameters, so a theorem holds whatever they are.
* A store call is one atomic step, as it is under the store's mutex. A driver's crash drops the driver between two
  steps and leaves both stores as they are.
* In the projection store a call may be cut short at any point, a write may have an unknown outcome, and a reopening
  may find any prefix of the log. Fiber ids are taken to be the key strings, that is, hashing is taken to be
  injective; the keys themselves are proved distinct.

Where the code and its comments disagree, the model follows the code:

* `work_queue.rs:130-133` describes two callers passing the insert for one key. The insert is one atomic step, so
  only one passes, and `EveryPendingKeyHasOneHolder` excludes the duplicate.
* `work_queue.rs:7-12` says a deduplicated job is covered by a queued one. `DeduplicatedAgainst` and
  `HeldKeyIsQueuedExactlyWhen` say exactly when it is, and `DeduplicatedCanLeaveNothingQueued` that it need not be.
* `work_queue.rs:278-280` calls the assertion in `complete_one` an underflow guard. The counter has wrapped before
  the assertion is reached (`OverrunReopensTheBatch`).
* `token_bucket.rs:34` speaks of a full bucket. `StartsFullExactlyWhen` says when a new bucket is full, and
  `NewBucketCanRefuseItsFirstToken` gives one that is not.

## Model

| member | source | states |
|---|---|---|
| `EventStore.ValidateStream` | crates/cherry-pit-core/src/event.rs:202-236 | Accepts exactly the streams that belong to the aggregate, run contiguously from 1 and repeat no event id; otherwise it names the first fault, in the order of the checks, of the first bad envelope |
| `EventStore.BuildEnvelopes` | crates/cherry-pit-core/src/testing.rs:159-195 | Succeeds exactly when no sequence overflows and no id is nil, and then stamps each event with the next sequence and the shared context |
| `EventStore.CreateKeeps` | crates/cherry-pit-core/src/testing.rs:219-246 | A create adds one new stream under the next id or changes no stream, and keeps all streams contiguous |
| `EventStore.AppendKeeps` | crates/cherry-pit-core/src/testing.rs:252-291 | An append touches only its own stream, extends it contiguously, and changes nothing when it fails |
| `EventStore.LoadThenAppend` | crates/cherry-pit-core/src/testing.rs:275-290 | When an append that expects the last sequence of an earlier load succeeds, nobody wrote to the stream in between |
| `EventStore.PerformKeepsSound` | crates/cherry-pit-core/src/testing.rs:219-291 | Create and append with fresh event ids keep every stream valid and every cause earlier than its effect |
| `EventStore.ReachableStoresAreSound` | crates/cherry-pit-core/src/testing.rs:219-291 | Every stream of every store reachable that way passes validation and is causally ordered |
| `InMemoryEventStores.InMemoryEventStore.constructor` | crates/cherry-pit-core/src/testing.rs:136-143 | A new store is valid, empty, and allocates id 1 first |
| `InMemoryEventStores.InMemoryEventStore.Load` | crates/cherry-pit-core/src/testing.rs:204-213 | Returns the stream when it is valid, an empty one for an unknown id, and corrupt data otherwise |
| `InMemoryEventStores.InMemoryEventStore.Create` | crates/cherry-pit-core/src/testing.rs:219-246 | The new state and answer are those of the create function, and every stream stays valid |
| `InMemoryEventStores.InMemoryEventStore.Append` | crates/cherry-pit-core/src/testing.rs:252-291 | The new state and answer are those of the append function, and every stream stays valid |
| `InMemoryEventStores.InMemoryEventStore.ReplayUntil` | crates/cherry-pit-core/src/testing.rs:316-324 | Keeping the envelopes with a sequence up to the bound is taking that many from the front |
| `InMemoryEventStores.WalkCauses` | crates/cherry-pit-core/src/testing.rs:332-352 | A walk that ends returns the linked envelopes of one correlation, each naming its predecessor as cause, ending at the requested event when it exists and starting where no cause can be found; with strictly increasing sequences when causes precede effects |
| `InMemoryEventStores.InMemoryEventStore.CausalChain` | crates/cherry-pit-core/src/testing.rs:326-353 | The same for the stream of the store |
| `InMemoryEventStores.WalkEndsExactlyWhen` | crates/cherry-pit-core/src/testing.rs:339-349 | The walk ends at all if and only if it ends within one hop per stored envelope |
| `InMemoryEventStores.OrderedCausesEnd` | crates/cherry-pit-core/src/testing.rs:339-349 | It ends whenever causes precede effects, as they do in every store built with fresh event ids |
| `InMemoryEventStores.CyclicCausesNeverEnd` | crates/cherry-pit-core/src/testing.rs:339-349 | A valid stream of two envelopes naming each other as cause is walked for ever |
| `SchedulerState.FromHistory` | crates/cherry-pit-core/src/scheduler.rs:226-245 | The loop computes the replay fold |
| `SchedulerState.ReplayReads` | crates/cherry-pit-core/src/scheduler.rs:226-245 | Replay agrees with the last event about each id: pending exactly when that is an arm, with that arm's data; fired exactly when a fire was ever recorded; cancelled exactly when a cancellation is not followed by an arm |
| `SchedulerState.DueInOrder` | crates/cherry-pit-core/src/scheduler.rs:276-280 | Lists exactly the pending ids due by the given time, in ascending order |
| `SchedulerState.DecideMeans` | crates/cherry-pit-app/src/scheduler.rs:163-177 | Which of the four outcomes a fire attempt takes, told on the stream; a fire copies the pending arm |
| `SchedulerState.LegitimateFiresAreUnique` | crates/cherry-pit-app/src/scheduler.rs:163-185 | If each fire copies the latest arm before it, not cancelled since and due, with no earlier fire, then no id fires twice |
| `SchedulerState.DecidedFireIsLegitimate` | crates/cherry-pit-app/src/scheduler.rs:163-185 | Appending what a decision says to fire keeps that of the whole stream |
| `SchedulerProtocol.FiresAreUnique` | crates/cherry-pit-app/src/scheduler.rs:102-188 | In every interleaving of drivers arming, cancelling, firing and recovering, with crashes anywhere, the scheduler stream holds at most one fire per id, each copying the latest arm before it, not cancelled in between and due at the time given to the firing call |
| `SchedulerProtocol.CompletionsAreUnique` | crates/cherry-pit-app/src/scheduler.rs:190-223 | In every such run a target stream holds at most one driver-written event per caller event id |
| `SchedulerProtocol.CompletionsStemFromFires` | crates/cherry-pit-app/src/scheduler.rs:190-223 | Every driver-written event stems from a recorded fire for that target and is the first in its stream with its caller event id |
| `SchedulerProtocol.OrphanExactlyWhen` | crates/cherry-pit-app/src/scheduler.rs:109-120 | A driver opens a stream other than the singleton exactly when it loaded an empty history, the singleton's id is gone, the store still has an id to give out, and the event id is not nil |
| `SchedulerProtocol.RacingDriversCanOrphan` | crates/cherry-pit-app/src/scheduler.rs:113-119 | Two drivers racing on an empty store leave stream 2 behind |
| `DurableSchedulers.CrashedStatesAreRecoverable` | crates/cherry-pit-app/src/scheduler.rs:81-94 | Every state of every such run with new event ids is one a driver can be built over and recover from |
| `DurableSchedulers.DurableScheduler.constructor` | crates/cherry-pit-app/src/scheduler.rs:81-94 | A driver over two valid stores is valid |
| `DurableSchedulers.DurableScheduler.AppendScheduler` | crates/cherry-pit-app/src/scheduler.rs:102-122 | Adds exactly the event to the singleton stream, or leaves that stream alone; it succeeds exactly when the stream has room or the next stream created is the singleton |
| `DurableSchedulers.DurableScheduler.Arm` | crates/cherry-pit-app/src/scheduler.rs:130-134 | Afterwards the schedule is pending with these data, or nothing was recorded; it succeeds exactly when the fact can be appended |
| `DurableSchedulers.DurableScheduler.Cancel` | crates/cherry-pit-app/src/scheduler.rs:142-149 | Afterwards the schedule is cancelled and not pending, or nothing was recorded; it succeeds exactly when the fact can be appended |
| `DurableSchedulers.DurableScheduler.CompleteFired` | crates/cherry-pit-app/src/scheduler.rs:190-223 | Succeeds exactly when the target has the caller event, or the bus is up, the decoder answers and the target exists with room; on success the target holds the event, which was written and published exactly when it was missing; a present one is left untouched |
| `DurableSchedulers.DurableScheduler.FireSchedule` | crates/cherry-pit-app/src/scheduler.rs:157-188 | The outcome is the decision on the stream; a decided fire succeeds exactly when the stream has room and the fire can be completed; any fact it records, even when it then errs, is that fire; on success it adds the fact, and the caller event unless the target has it, and nothing else; any other outcome touches nothing |
| `DurableSchedulers.DurableScheduler.RecoverDue` | crates/cherry-pit-app/src/scheduler.rs:231-254 | From any state: on success every fire has its caller event, no never-fired schedule is pending and due, the fires appended are of schedules that were due and never fired and copy their arms, `fired` counts them, and `completed` counts the caller events written exactly when what was due carried caller event ids of its own, and more otherwise; with nothing to do it appends nothing and reports zeros; it succeeds whenever each fire's caller event is present or can be written with room to spare |
| `DurableSchedulers.FreshExactlyWhenClean` | crates/cherry-pit-app/src/scheduler.rs:243-252 | The fires of a recovery all add their caller event exactly when the due schedules' target and caller event id pairs are new and pairwise distinct |
| `DurableSchedulers.ArmedTwiceIsNotClean` | crates/cherry-pit-app/src/scheduler.rs:248-250 | A stream that arms one caller event under two ids is an input on which `completed` is too large, and a recovery of it succeeds |
| `DurableSchedulers.RecoverArmedTwice` | crates/cherry-pit-app/src/scheduler.rs:231-254 | Armed and recovered over new stores, it reports more completions than events were written |
| `DurableSchedulers.FireAloneIsFireSchedule` | crates/cherry-pit-app/src/scheduler.rs:157-188 | The steps of a fire in the interleaved model, taken by one driver alone, change both stores exactly as `FireSchedule` does |
| `DurableSchedulers.CompleteAloneIsCompleteFired` | crates/cherry-pit-app/src/scheduler.rs:190-223 | The same for completing a recorded fire and `CompleteFired` |
| `Mergers.Merger.constructor` | crates/cherry-pit-merger/src/merger.rs:88-106 | Spawned over an index that fits the store, with any tracker, correct, absent or stale after an earlier unknown outcome, the merger starts as the map those describe |
| `Mergers.Merger.LoadEnvelopesOrEmpty` | crates/cherry-pit-merger/src/shared.rs:82-103 | An unindexed key reads as empty, an indexed one as its stream with the last sequence, an indexed empty stream as corrupt data |
| `Mergers.Merger.CreateFresh` | crates/cherry-pit-merger/src/shared.rs:231-258 | Opens exactly one stream with exactly the events, indexes it only under a free key, and changes no map on an error |
| `Mergers.Merger.CreateOrAppend` | crates/cherry-pit-merger/src/shared.rs:125-180 | The key's events grow by exactly the new ones and no other key changes; a stream is opened exactly on the first reference; with a healthy store it fails only for lack of room, never with a conflict |
| `Mergers.Merger.AppendAndTrack` | crates/cherry-pit-merger/src/shared.rs:192-213 | The same for an indexed key; afterwards the tracker is at the stream's last sequence, whatever happened before |
| `Mergers.Merger.PublishOrTrace` | crates/cherry-pit-merger/src/shared.rs:275-298 | Publishes when the bus is up and absorbs the failure otherwise |
| `Mergers.Merger.HandleAgainstHistory` | crates/cherry-pit-merger/src/merger.rs:161-205 | The arm is asked on the fold of the key's own events; a strict append to an unknown key is the missing-key error |
| `Mergers.Merger.RunCreate` | crates/cherry-pit-merger/src/merger.rs:141-152 | An accepted create opens a stream with the events handled on the default state and leaves the map alone |
| `Mergers.Merger.RunCreateOrAppend` | crates/cherry-pit-merger/src/merger.rs:154-179 | An accepted command moves the map as specified and publishes its events; a refused one changes no map and publishes nothing |
| `Mergers.Merger.RunAppendStrict` | crates/cherry-pit-merger/src/merger.rs:181-211 | The same for strict appends, which fail with a missing key exactly when the key is not indexed |
| `Mergers.Merger.HandleOne` | crates/cherry-pit-merger/src/merger.rs:125-139 | One command refines one step of the map; with a healthy store it is accepted exactly when `handle` yields events and there is room; index entries never change; an error leaves every stream alone unless it is indeterminate, and the map too unless an append to an indexed key landed unnoticed |
| `Mergers.Merger.Run` | crates/cherry-pit-merger/src/merger.rs:118-123 | Over every queue, index and store are the map of the commands that took effect in queue order, and distinct keys own distinct streams; an error took effect only as an append behind an unknown outcome; with every outcome known these are the accepted commands, exactly the streams they open are opened, and the tracker is exact |
| `Mergers.KeyIsCreatedOnce` | crates/cherry-pit-merger/src/shared.rs:137-156 | Of two accepted commands for one key only the first opens a stream |
| `Mergers.KeysAreIndependent` | crates/cherry-pit-merger/src/merger.rs:154-211 | From any map, a key's events after a queue are those it had, followed by what `handle` returned for its own accepted commands, each handled against the fold of all before it; the key is present exactly when it was or one was accepted |
| `ProjectionStores.KeysAreInjective` | crates/pardosa-cherry-pit-projection/src/lib.rs:47-53 | Two record keys are equal exactly when aggregate, projection name and kind are, whatever the name contains |
| `ProjectionStores.ActiveCheckpointIsCovered` | crates/pardosa-cherry-pit-projection/src/lib.rs:369-403 | On every log the protocol can write, an active checkpoint is that aggregate's own and has an active snapshot persisted for a sequence no smaller |
| `ProjectionStores.CheckpointNeverDecreases` | crates/pardosa-cherry-pit-projection/src/lib.rs:360-367 | Along a log a checkpoint never decreases until it is detached |
| `ProjectionStores.PersistReadsBack` | crates/pardosa-cherry-pit-projection/src/lib.rs:369-403 | The two records of a persist read back, and every other aggregate and projection reads as before |
| `ProjectionStores.DeleteReadsBack` | crates/pardosa-cherry-pit-projection/src/lib.rs:533-606 | After a delete neither record reads, and every other aggregate and projection reads as before |
| `ProjectionStores.PardosaProjectionStore.PutRecord` | crates/pardosa-cherry-pit-projection/src/lib.rs:369-379 | A record write succeeds exactly when the fiber is found and the write lands; it is indeterminate, and makes the session uncertain, exactly when the outcome is unknown; an infrastructure error means nothing was written |
| `ProjectionStores.PardosaProjectionStore.DetachRecord` | crates/pardosa-cherry-pit-projection/src/lib.rs:539-553 | The same for detaching an active record; an inactive one is left alone |
| `ProjectionStores.PardosaProjectionStore.ReadySession` | crates/pardosa-cherry-pit-projection/src/lib.rs:228-242 | A poisoned session is an infrastructure error and an uncertain one is indeterminate |
| `ProjectionStores.PardosaProjectionStore.LoadCheckpointFromSession` | crates/pardosa-cherry-pit-projection/src/lib.rs:471-512 | Returns the active checkpoint's sequence; corrupt data exactly when the record has no sequence or belongs elsewhere, which never happens on a log of this protocol |
| `ProjectionStores.PardosaProjectionStore.LoadCheckpoint` | crates/pardosa-cherry-pit-projection/src/lib.rs:463-469 | The same for a ready session; otherwise no record is read |
| `ProjectionStores.PardosaProjectionStore.LoadSnapshot` | crates/pardosa-cherry-pit-projection/src/lib.rs:432-447 | Returns the active snapshot's bytes or none; a session that is not ready is refused without reading |
| `ProjectionStores.PardosaProjectionStore.Persist` | crates/pardosa-cherry-pit-projection/src/lib.rs:323-416 | Exactly when it succeeds; what it can leave behind; an error other than indeterminate leaves the log as it was; an uncertain session stays uncertain and is neither read nor written; the session becomes uncertain exactly when a write of this call is undetermined, and the call then answers indeterminate |
| `ProjectionStores.PardosaProjectionStore.Delete` | crates/pardosa-cherry-pit-projection/src/lib.rs:533-606 | The same for delete, in the reverse order |
| `ProjectionStores.NothingFollowsAnUndeterminedWrite` | crates/pardosa-cherry-pit-projection/src/lib.rs:228-606 | Over every run: from an undetermined write until the next reopening, whatever calls come, the log stays as it is and no record is read or written |
| `ProjectionStores.UncertainExactlyWhen` | crates/pardosa-cherry-pit-projection/src/lib.rs:228-606 | Over every run: the session is uncertain exactly when a write was left undetermined and the session was not reopened since |
| `ProjectionStores.RunsAreCovered` | crates/pardosa-cherry-pit-projection/src/lib.rs:323-606 | In every run of persists, deletes and reopenings, each call possibly cut short and each reopening finding any prefix, an active checkpoint is covered by an active snapshot |
| `ProjectionStores.ShorteningLosesExactly` | crates/pardosa-cherry-pit-projection/src/lib.rs:273-287 | Reopening from a prefix lowers the checkpoint exactly when it drops an undetached checkpoint entry with a higher sequence |
| `ProjectionStores.CheckpointsAdvanceExactlyWhen` | crates/pardosa-cherry-pit-projection/src/lib.rs:360-403 | Over every run, between deletes the checkpoint never decreases if and only if no reopening drops such an entry |
| `ProjectionStores.CheckpointsOnlyAdvance` | crates/pardosa-cherry-pit-projection/src/lib.rs:360-403 | A checkpoint is a floor for good while reopening finds the log that held it, whatever it drops behind it |
| `ProjectionStores.DurableCheckpointsOnlyAdvance` | crates/pardosa-cherry-pit-projection/src/lib.rs:410-415 | The synced checkpoint is a floor for good through every crash that finds the synced part, unless a delete comes or is in the unsynced tail |
| `ProjectionStores.SyncedCheckpointIsSafeExactlyWhen` | crates/pardosa-cherry-pit-projection/src/lib.rs:410-415 | That proviso is exact: all such crashes leave the synced checkpoint if and only if there is none or no delete of it is in the unsynced tail |
| `ProjectionStores.UnsyncedCheckpointCanGoBack` | crates/pardosa-cherry-pit-projection/src/lib.rs:386-414 | A run in which it does go back: a checkpoint whose sync failed is lost with the unsynced tail |
| `BudgetGate.CallsNeverExceedLargestLimit` | crates/cherry-pit-wq/src/budget.rs:230-343 | In every run with policies and live resizing, `resetting` holds exactly while one caller is inside the transition, and `calls` never exceeds the largest limit ever installed |
| `BudgetGate.OnlyElectedMovesTheEpoch` | crates/cherry-pit-wq/src/budget.rs:268-331 | Only the elected caller zeroes `calls` or installs a policy ceiling |
| `BudgetGate.FailedTransitionChangesNothing` | crates/cherry-pit-wq/src/budget.rs:296-325 | A cancelled, unavailable, panicking or dropped transition changes neither `calls` nor the limit and releases the election |
| `BudgetGate.NotifyWakesRegistered` | crates/cherry-pit-wq/src/budget.rs:404-409 | Releasing the guard wakes every caller registered by then, parked or about to park |
| `BudgetGate.WaitersAreWokenExactlyWhen` | crates/cherry-pit-wq/src/budget.rs:332-341 | Over every run: a waiter has been notified, or is owed a notification by a caller inside the transition, exactly when that was so earlier or an election was won since |
| `BudgetGate.ParkedWakesExactlyWhen` | crates/cherry-pit-wq/src/budget.rs:332-341 | Some sequence of steps of other callers, without a won election, lets a parked caller wake exactly when a notification after its registration has happened or is owed |
| `BudgetGate.ParkingIsSafeExactlyWhen` | crates/cherry-pit-wq/src/budget.rs:332-341 | In every run, a caller that parks can still be woken without a new election exactly when, at the check before it parked, a notification after its registration had happened or was owed by a caller inside the transition |
| `BudgetGate.DebtorCanWake` | crates/cherry-pit-wq/src/budget.rs:273-322 | What is owed can be paid by the caller that owes it alone, in at most five steps |
| `BudgetGate.TotalCallsTallies` | crates/cherry-pit-wq/src/budget.rs:255-264 | `total_calls` is the number of charges, modulo 2^64, less the charges whose count is still in flight |
| `BudgetGate.FixedLimitBounds` | crates/cherry-pit-wq/src/budget.rs:250-397 | With a fixed limit L and no policy, in every run: calls at most L, grants at least resets times L, grants less effective refunds at most (resets + 1) times L |
| `BudgetGate.RaisingKeepsBound` | crates/cherry-pit-wq/src/budget.rs:230-343 | While the limit is never lowered, `calls` never exceeds the current limit |
| `BudgetGate.CallsStayWithinLimitExactlyWhen` | crates/cherry-pit-wq/src/budget.rs:230-343 | In every run `calls` stays within the limit in force if and only if nothing installs less than `calls` and no charge lands on a stale limit |
| `BudgetGate.LoweringBreaksBound` | crates/cherry-pit-wq/src/budget.rs:230-233 | From any reachable state any live lowering can leave `calls` above the limit in force |
| `BudgetGate.PolicyLoweringBreaksBound` | crates/cherry-pit-wq/src/budget.rs:297-302 | And so can any lower policy ceiling, between its two stores |
| `BudgetGate.LateWaiterCanStrand` | crates/cherry-pit-wq/src/budget.rs:332-341 | A caller that registers after the election was released can park so that no step of the others wakes it unless a new election is won |
| `TokenBucket.RunsAreChained` | crates/cherry-pit-wq/src/token_bucket.rs:137-169 | In every race the landed debits form a chain, each computed from the level its predecessor left |
| `TokenBucket.AdmissionsInWindow` | crates/cherry-pit-wq/src/token_bucket.rs:113-169 | For any racing callers, the debits sampled in a window are at most the capacity plus what the window generated |
| `TokenBucket.IdleBurstIsCapacity` | crates/cherry-pit-wq/src/token_bucket.rs:143-161 | A bucket idle long enough gives exactly its capacity at one reading, and the next debit is refused |
| `TokenBucket.WaitIsAtMostASecond` | crates/cherry-pit-wq/src/token_bucket.rs:162-167 | A refusal other than counter overflow waits between one nanosecond and one second |
| `TokenBucket.WaitSuffices` | crates/cherry-pit-wq/src/token_bucket.rs:137-169 | After the wait, with no other debit, the debit is not refused again exactly when the reading and the wait together generate the counter and one token more, as they always do for a reading not behind the counter; nor is it then at any later reading; it overflows exactly when the counter would |
| `TokenBucket.WaitIsNearlyLeast` | crates/cherry-pit-wq/src/token_bucket.rs:162-167 | For any reading, stale or not, the wait exceeds any sufficient one by at most the time one milli-token takes, rounded up |
| `TokenBucket.StaleReadingWaitCanFallShort` | crates/cherry-pit-wq/src/token_bucket.rs:139-145 | A state of a run in which a caller with a reading older than the counter is told a wait that is too short |
| `TokenBucket.StartingLevel` | crates/cherry-pit-wq/src/token_bucket.rs:34-45 | The level of a new bucket whose backdating neither clamps nor falls back |
| `TokenBucket.StartsFullExactlyWhen` | crates/cherry-pit-wq/src/token_bucket.rs:34-45 | A new bucket is full exactly when backdating neither clamps nor falls back and the fill time is a whole number of nanoseconds |
| `TokenBucket.NewBucketCanRefuseItsFirstToken` | crates/cherry-pit-wq/src/token_bucket.rs:90-107 | One token at three per second: the first debit at construction time is refused |
| `TokenBucket.AdmissionsSinceConstruction` | crates/cherry-pit-wq/src/token_bucket.rs:34-169 | In every run of any new bucket the debits sampled up to delta after construction are at most the capacity plus delta times the rate |
| `WorkQueues.WorkQueue.constructor` | crates/cherry-pit-wq/src/work_queue.rs:118-126 | A positive capacity gives an open, empty queue |
| `WorkQueues.WorkQueue.Enqueue` | crates/cherry-pit-wq/src/work_queue.rs:134-164 | Deduplicated, accepted or refused by what is queued; the pending set stays the keys of the channel |
| `WorkQueues.WorkQueue.Dequeue` | crates/cherry-pit-wq/src/work_queue.rs:170-175 | Takes the oldest job and frees its key; on an empty queue it ends when closed and waits otherwise |
| `WorkQueues.WorkQueue.Close` | crates/cherry-pit-wq/src/work_queue.rs:179-185 | Closes the queue and touches nothing else |
| `WorkQueues.WorkQueue.EnqueueBatch` | crates/cherry-pit-wq/src/work_queue.rs:206-246 | The three counts add up to the batch, the channel grows by exactly the accepted items, and a rejection from an open queue means it is full |
| `WorkQueues.BatchKeepsOrder` | crates/cherry-pit-wq/src/work_queue.rs:217-230 | A batch keeps what was queued in place, queues no key twice, and leaves room only if every key of the batch is queued |
| `WorkQueues.EveryPendingKeyHasOneHolder` | crates/cherry-pit-wq/src/work_queue.rs:134-185 | In every interleaving each pending key is held by exactly one producer, queued job or consumer; the channel holds no key twice and at most its capacity; jobs leave in acceptance order |
| `WorkQueues.QuietQueueOwnsItsKeys` | crates/cherry-pit-wq/src/work_queue.rs:134-175 | When nobody is inside a call the pending set is exactly the keys in the channel |
| `WorkQueues.ClosedStaysClosed` | crates/cherry-pit-wq/src/work_queue.rs:145-149 | A closed queue accepts nothing more |
| `WorkQueues.UninterruptedIsEnqueue` | crates/cherry-pit-wq/src/work_queue.rs:134-164 | The atomic steps of one caller, run alone, are the sequential enqueue |
| `WorkQueues.DeduplicatedAgainst` | crates/cherry-pit-wq/src/work_queue.rs:135-138 | In every run a pending key is queued exactly when no caller holds it; otherwise it is held by a producer that has not sent yet or by a consumer that just received |
| `WorkQueues.HeldKeyIsQueuedExactlyWhen` | crates/cherry-pit-wq/src/work_queue.rs:141-163 | In every run, when the call of a producer holding a key ends, a job for the key is queued if and only if its send found the queue open and with room |
| `WorkQueues.DeduplicatedCanLeaveNothingQueued` | crates/cherry-pit-wq/src/work_queue.rs:135-163 | Every run that reaches a full or closed queue continues to one where a caller was deduplicated although no job for its key is or was queued |
| `WorkQueues.ClosedRun` | crates/cherry-pit-wq/src/work_queue.rs:179-185 | Such a run exists for every capacity |
| `BatchTracker.SlotsAreConserved` | crates/cherry-pit-wq/src/work_queue.rs:281-323 | In every run only an overrun changes the sum of remaining and retired slots, and by how much |
| `BatchTracker.CountHoldsExactlyWithinBudget` | crates/cherry-pit-wq/src/work_queue.rs:281-323 | The initial count is remaining plus retired exactly while no completion overran |
| `BatchTracker.OverrunReopensTheBatch` | crates/cherry-pit-wq/src/work_queue.rs:281-323 | An overrun is a completion on an empty batch and leaves the largest counter value; retiring saturates; a drain retires everything |
| `BatchTracker.TheEndIsSeenOnce` | crates/cherry-pit-wq/src/work_queue.rs:287-315 | Within the budget exactly one call sees a positive count reach zero |
| `BatchTracker.NoWaiterMissesTheEnd` | crates/cherry-pit-wq/src/work_queue.rs:326-332 | A waiter that saw a positive count either still has an open batch, or a notification on its way that will wake it, or can wake already |
| `CanonicalJson.EscapeJsonString` | crates/cherry-pit-storage/src/signature.rs:85-103 | The loop computes the escaping |
| `CanonicalJson.ReadEscaped` | crates/cherry-pit-storage/src/signature.rs:85-103 | A reader after section 7 of RFC 8259 reads every escaped string back |
| `CanonicalJson.SortedKeys` | crates/cherry-pit-storage/src/signature.rs:56-57 | The key list is sorted and holds exactly the keys |
| `CanonicalJson.ReadCanonical` | crates/cherry-pit-storage/src/signature.rs:53-76 | A JSON reader reads every printed value back, objects read as maps |
| `CanonicalJson.CanonicalInjective` | crates/cherry-pit-storage/src/signature.rs:53-76 | Two values print alike exactly when they are equal |
| `CanonicalJson.PreHashIsCanonical` | crates/cherry-pit-storage/src/signature.rs:15-35 | The hashed text is the canonical form of the snapshot without its top-level `run_timestamp` |
| `CanonicalJson.PreHashDecides` | crates/cherry-pit-storage/src/signature.rs:15-35 | Two snapshots have the same hashed text exactly when they agree apart from that key |
| `CfgPredicate.EvalIsSound` | crates/non-exhaustive-check/src/main.rs:210-262 | A decided truth is the predicate's value in every configuration without `test` |
| `CfgPredicate.EvalIsExact` | crates/non-exhaustive-check/src/main.rs:231-261 | When no unknown option occurs under both an even and an odd number of negations, a truth is decided exactly when the value is the same in all such configurations |
| `CfgPredicate.ReadOnceHasOnePolarity` | crates/non-exhaustive-check/src/main.rs:231-261 | That covers every predicate in which no unknown option occurs twice |
| `CfgPredicate.RepeatedOptionIsNotExact` | crates/non-exhaustive-check/src/main.rs:238-247 | An option that occurs both ways can always hold and still evaluate to unknown |
| `CfgPredicate.ParseTruthIsEval` | crates/non-exhaustive-check/src/main.rs:210-262 | Evaluating while reading tokens is reading a predicate and evaluating it; both refuse the same tokens |
| `CfgPredicate.PrintParses` | crates/non-exhaustive-check/src/main.rs:210-262 | Every predicate is read back from its tokens, with or without trailing commas |
| `CfgPredicate.SkippedExactlyWhenOff` | crates/non-exhaustive-check/src/main.rs:264-276 | An item is skipped only if it is off in every build without `test`, and always then when no unknown option occurs under both an even and an odd number of negations |
| `CfgPredicate.SkippedTokensAreOff` | crates/non-exhaustive-check/src/main.rs:264-276 | Any tokens that are skipped read as a predicate that is off in every such build |

## Left out

- InMemoryEventStores.InMemoryEventStore.CausalChain: is stated for walks that end, since the source does not return from the others.
- DurableSchedulers.DurableScheduler.RecoverDue: the stated condition for success is sufficient; it asks for more room than is used and for the decoder's answer even where another fire writes the same caller event.
- DurableSchedulers.DurableScheduler.AppendScheduler: is stated for arm and cancel facts, the only ones it is called with.
- SchedulerProtocol.FiresAreUnique: is about stream 1, the one drivers load; orphan streams are never read.
- SchedulerProtocol.CompletionsAreUnique: assumes that a decoded event carries the caller event id of the fire, and that only drivers write to the scheduler store; other writers may write to the targets.
- Mergers.Merger.constructor: an index entry must name a stream that exists; one that does not could come to share a stream allocated later.
- Mergers.Merger.Run: after an unknown outcome neither the tracker nor the number of streams is promised, since a stream may have been opened or extended without the merger learning of it.
- ProjectionStores.UncertainExactlyWhen: Pardosa is taken to mark a session uncertain for an undetermined write and for nothing else, so not for a failed sync.
- ProjectionStores.PardosaProjectionStore.Persist: the early readiness check before encoding (crates/pardosa-cherry-pit-projection/src/lib.rs:329) is merged with the one under the lock; serialization and payload encoding are one size limit.
- How the medium recovers beyond finding a prefix of the log is foreign code.
- `BudgetGate`, `TokenBucket`, `WorkQueue` (interleaved) and `BatchTracker` are machines over values, not classes; memory orderings weaker than sequential consistency are not modelled.
- Sleeping, cancellation and policies of the budget gate are steps that may happen at any time; that an owed notification is eventually sent is not stated.
- Timestamps of envelopes, tracing, the pause notification, publish labels and routing keys inside commands.
- Mutex poisoning other than the projection store's session, and panics other than in a replenish policy.
- Surrogate pairs in string escapes, SHA-256, and how serde prints numbers; a number is its text.
- The 128-byte bound on projection names, schema descriptors, and opening or creating files.
- Run locks, atomic file writes, zstd and the Pardosa internals: they rest on the file system or on foreign code.
- The HTTP layer, `App`, the event bus, worker pools, the rate-limit observer, the backoff regulator, and the file scanning of non-exhaustive-check: plumbing around the components above.
