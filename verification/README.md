# Geofence location processing: a verified model

The system receives location reports, puts them on partition queues, and lets workers turn each
report into changes of two tables: which areas a user is in now (`user_area_presence`) and when
an area was entered (`logs`). This project models the parts of it whose correctness is hard to see
from one function, and proves what they keep.

The modules, from the shared ones up:

- `Tables`, `Lists`: presence and log rows, the transition of one report, lists used as sets.
- `Brokers`, `Pipeline`: the queue and one worker as a machine over labelled steps. A step is one
  atomic section between two awaits, one SQL statement, one broker action, or a change made by
  somebody else (an area created or deleted, a new snapshot, a crash).
- `Conservation`, `AckReasons`, `Progress`, `Draining`, `FastPath`, `Dedup`, `Replay`, `ExactlyOnce`,
  `Turns`, `LockContention`: what every run of that machine keeps, what stands behind an ack, and whom a
  hanging transaction holds up.
- `Scenarios`, `Collisions`: runs with two messages that show what the machine does not keep.
- `WritePath`, `WriteProgress`: the change transaction statement by statement, any number at once: what
  the tables become, and that transactions get on.
- `UserChains`: the per-user promise chains, their cleanup and the shutdown drain.
- `LocationsService`, `WorkerConsumer`: `report()` and the message handler as classes, branch by
  branch, proved against the same `Transition`, `Remember` and chain functions the machines use.
- `PresenceCache`: the cache service as a class, and many reports of one user racing through it.
- `AreaSnapshot`: the rebuild chain as a class, and as a machine among creations, polls and failures.
- `GeoJsonPolygon`, `SpatialIndex`, `Triangles`, `Coverage`: the structural check, the box prefilter and
  the exact test, and what the exact test computes.
- `LogsKeyset`: the statement of one page, and walks over a table that changes between pages.
- `PartitionSpec`: the partition list of a worker.

Assumptions of the machines: a transaction that rejects has rolled back; the broker records an ack
when the channel is told to ack; a crash aborts open transactions and puts unacked deliveries back
in their original order. A nacked message may come back anywhere in the queue, except where
`ExactlyOnce` says otherwise: a run is called calm there when events are well formed and number their
devices upwards, no area is deleted and no snapshot swapped, nothing reaches the delivery limit, and a
nacked message goes back to a place that keeps its user's order; crashes may happen anywhere. The gap
is the moment between a commit and the memory update that follows it. Two details are modelled as written: an unknown device starts at
number 0, and the dedup key is the plain concatenation of user id, a colon and device id.

Where the proofs found the code and its texts apart:

- `docs/ADR/0012-in-memory-spatial-index.md:143-145` says an area deleted out of band stays in other
  instances' snapshots for up to one poll interval. Nothing bumps the version on a deletion, so a
  process can hold the deleted area however often it polls (`AreaSnapshot.PollsKeepDeletedArea`). The
  area is gone exactly when the rows were read at or after the deletion
  (`AreaSnapshot.AbsentExactlyAfterDeletion`), which a poll brings about once a later creation has
  been polled (`AreaSnapshot.QuietPollAfterCreationSeesDeletion`).
- `docs/ADR/0017-per-user-parallelism.md` removes head-of-line blocking between users. That fails for
  a user whose id hashes to the same advisory lock as one that hangs inside its transaction: once such
  a message waits for the lock, no run of the others settles it (`Progress.StuckNeverSettles`). While
  some users hang, the others can settle everything if and only if no user that shares a lock with a
  hanging transaction has a delivered message that will open one
  (`LockContention.SettleExactlyUnlessOneOpens`), which the memory, the snapshot, the dedup map and the
  presence rows tell in advance.
- A nacked message may come back behind later ones of its user. Then the tables follow the order in
  which the reports ended (`Turns.RowsFollowTheTurns`). An event with a number that was overtaken by a
  success of its device is acked as a duplicate and never takes effect, as
  `docs/ADR/0017-per-user-parallelism.md:58-69` describes (`Scenarios.NackedEventIsLost`). Apart from
  those that would enter a deleted area, no other acked event is lost
  (`Turns.LostExactlyWhenOvertakenOrDropped`). An event without a number takes effect late instead
  (`Scenarios.NackedEventComesLate`).
- The dedup keys of user ids with a colon can collide (`Dedup.KeysCanCollide`). Whenever two devices
  collide, a stored number can go down (`Collisions.CollidingSeedLowersTheNumber`), by a late seed and
  by nothing else (`Dedup.StoredNumberShrinksOnlyBySeeding`), and an event can be acked as a duplicate
  of the other device's (`Collisions.CollidingEventIsRefused`). Among any set of devices no run does
  that if and only if their keys are distinct (`Collisions.NobodyPaysExactlyWhenKeysAreDistinct`).
- The comment on `isStaleAreaViolation` speaks of the presence table's area reference; the log
  table's area reference qualifies as well (`WorkerConsumer.OnlyAreaReferencesQualify`).
- `src/presence/presence-cache.service.ts:18-19` calls the lifetime the upper bound on how long a stale
  key can suppress the fast path, and the repository's `README.md:485` says that the worst-case entry
  suppression equals it. The lifetime counts from the write of the key, not from the read behind it. What
  is shown is always younger than a delay plus the lifetime if and only if every such key was written at
  most that delay after its report read the table (`PresenceCache.YoungExactlyWhenPrompt`), which a report
  can tell from its clock before it sends the write. Then a hit suppresses an entry less than the delay
  plus the lifetime after the presence behind it has ended (`PresenceCache.SuppressionIsBounded`), and for
  every delay a run does so in the last second of that time (`PresenceCache.StaleHitCanSuppressAnEntry`).
- The structural polygon check lets a hole outside the outer ring pass; there the box prefilter and
  the exact test part (`SpatialIndex.HoleOutsideTheBoxIsLost`). `ST_IsValid` rejects such a polygon
  before it is stored.

## Model

| member | source | states |
|---|---|---|
| `Conservation.SoundNext` | src/worker/worker-consumer.service.ts:166-264 | every step, crashes and nacks included, keeps each published message in exactly one of queued, unacked, acked and dead-lettered, keeps the delivery counts within the limit, and keeps all but the oldest delivery of a user waiting |
| `Conservation.OneRunning` | src/worker/worker-consumer.service.ts:196-210 | two running tasks of one user are the same task |
| `Conservation.RunningIsFirst` | src/worker/worker-consumer.service.ts:196-210 | a running task belongs to its user's oldest unacked delivery |
| `AckReasons.AckSaysWhatHappened` | src/worker/worker-consumer.service.ts:223-263 | a message becomes acked only by a step of its own task; the task then stood at the gate with a covered number, at the end of a report without or with a commit, or in a transaction about to enter a missing area |
| `AckReasons.InitReasons` | src/worker/worker-consumer.service.ts:166-264 | an empty queue satisfies the invariant on recorded reasons |
| `AckReasons.EveryAckIsExplained` | src/worker/worker-consumer.service.ts:223-263 | for every acked message of every run from the start, some step of its own task acked it; a duplicate was at or below the seed or a number stored under its key since the worker started; "no change" follows a comparison of the message at which the transition was the identity; an effect follows a commit of the message; a stale area was one it would have entered and that does not exist |
| `Progress.WorkIsBounded` | src/worker/worker-consumer.service.ts:166-264 | the steps of worker and broker in any run are bounded by the publications, the delivery limit and what was pending |
| `Progress.DeliveriesAreBounded` | src/worker/worker-consumer.service.ts:262-262 | every message is delivered at most one time more than the delivery limit, exactly so often when dead-lettered |
| `Draining.IdleExactlyWhenDrained` | src/worker/worker-consumer.service.ts:188-264 | the worker has no step of its own exactly when nothing is queued or out |
| `Draining.MaximalRunsSettleAll` | src/worker/worker-consumer.service.ts:188-264 | after any run, the worker's own steps in any order are at most as many as the bound on pending work, and where none is left every published message is acked or dead-lettered, and only there |
| `Draining.EveryRunCanSettleAll` | src/worker/worker-consumer.service.ts:188-264 | from wherever a run has got to, the worker's own steps can settle every published message |
| `Progress.OthersAlwaysSettle` | src/worker/worker-consumer.service.ts:188-210 | while the tasks of some users never move again, some finite run of the others settles every delivery of theirs, nacking only readings that fail the accuracy gate, and leaves the hanging ones where they are, if no lock is shared with a hanging transaction (a sufficient condition) |
| `Progress.SettleUnlessStuck` | src/worker/worker-consumer.service.ts:188-210 | the same under the weaker condition that no run of the others brings one of them to wait for the lock of a hanging transaction |
| `Progress.SettleExactlyUnlessStuck` | src/worker/worker-consumer.service.ts:188-210 | that condition is exact: it holds if and only if the others can settle whatever they do first |
| `Progress.StuckNeverSettles` | src/migrations/1786118827443-CreateLockedPresenceReadFunction.ts:19-19 | once a message waits for the lock of a hanging transaction, no run of the others settles it |
| `LockContention.SettleExactlyUnlessOneOpens` | src/worker/worker-consumer.service.ts:188-210 | in every state that meets the invariants below, the others have such a run if and only if no user whose lock a hanging transaction holds has a delivered message that waits for a transaction or, by the gate, the accuracy check, its areas and the hint it will meet, will open one |
| `LockContention.EveryRunSettlesExactly` | src/worker/worker-consumer.service.ts:188-210 | so at the end of every run from the start in which dedup keys tell devices apart |
| `LockContention.OpensNeverSettles` | src/locations/locations.service.ts:104-117 | a message that will open a transaction under a held lock stays unsettled in every run of the others |
| `LockContention.ReadyNext` | src/worker/worker-consumer.service.ts:196-264 | every step keeps what the condition rests on: readings past the lookup passed the accuracy gate, open transactions hold different locks, and only users not remembered are read from the table |
| `Progress.BlockedStaysBlocked` | src/migrations/1786118827443-CreateLockedPresenceReadFunction.ts:19-19 | a message that waits for the lock of a hanging transaction of another user keeps waiting through every step but a crash, a step of the hanging message, and a rejection of the waiting statement itself |
| `Progress.SharedLockBlocks` | src/migrations/1786118827443-CreateLockedPresenceReadFunction.ts:19-19 | hence it is never acked in any run of such steps |
| `FastPath.RunKeepsHints` | src/locations/locations.service.ts:84-109 | in every run, with areas created and deleted by others, presence equals memory restricted to existing areas for every remembered user outside the gap between commit and memory update |
| `FastPath.InitHints` | src/presence/presence-memory.service.ts:22-32 | a worker that remembers nothing starts with that invariant |
| `FastPath.MemoryIsExact` | src/locations/locations.service.ts:84-92 | while a task of the user runs before its commit, the user is outside the gap and what is remembered is exact |
| `FastPath.FastPathSkipsNothing` | src/locations/locations.service.ts:104-109 | whenever the comparison finds no difference, the transition that a transaction would have carried out changes no row and logs nothing |
| `FastPath.RealChangeOpensTransaction` | src/locations/locations.service.ts:104-115 | an entry into or exit from an existing area always opens a transaction |
| `FastPath.CommitPerformsTransition` | src/locations/locations.service.ts:138-178 | the commit is exactly the transition to the current areas that exist, and no other user's rows change |
| `FastPath.MemoryAgreesOutsideTheGap` | src/locations/locations.service.ts:189-196 | from the initial state, in every run and for every remembered user outside the gap, memory restricted to existing areas equals presence |
| `FastPath.NoRunSkipsAChange` | src/locations/locations.service.ts:104-109 | from the initial state, in every run, a report about to skip its transaction skips no change to rows or log |
| `Tables.CommitIsTransition` | src/locations/locations.service.ts:138-174 | inserting the entered and deleting the departed areas, conflicts ignored, is the transition whenever the read agrees with the table on existing areas |
| `Dedup.KeyIsInjective` | src/worker/worker-consumer.service.ts:286-286 | for user ids without a colon equal keys mean the same user and device |
| `Dedup.KeysCanCollide` | src/worker/worker-consumer.service.ts:286-286 | two different pairs whose keys are equal |
| `Collisions.CollidingSeedLowersTheNumber` | src/worker/worker-consumer.service.ts:286-295 | for any two devices with equal keys and any first number above both seeds, a run from the start after which the seed of the second device overwrites that number |
| `Collisions.CollidingEventIsRefused` | src/worker/worker-consumer.service.ts:286-296 | for any two devices with equal keys and any numbers above their seeds, the second not above the first, a run from the start in which the only event of the second device is acked as a duplicate and takes no effect |
| `Collisions.DistinctKeysRefuseNobody` | src/worker/worker-consumer.service.ts:282-297 | in a run in which keys tell devices apart, the gate refuses no event whose number is above its seed and above every success of its own device |
| `Collisions.NobodyPaysExactlyWhenKeysAreDistinct` | src/worker/worker-consumer.service.ts:282-297 | among any set of devices, no run from the start refuses an event on another device's account if and only if their keys are distinct |
| `Dedup.StoredIsHighestSuccess` | src/worker/worker-consumer.service.ts:282-308 | the stored number is the highest of the seed and the numbers that succeeded, and those are strictly increasing |
| `Dedup.DuplicateMeansSeen` | src/worker/worker-consumer.service.ts:282-297 | a delivery is acked as a duplicate exactly when its number is not above the seed or not above some number that succeeded before |
| `Dedup.StoredNumberShrinksOnlyBySeeding` | src/worker/worker-consumer.service.ts:287-295 | outside crashes a stored number goes down if and only if a late answer of the table overwrites a larger number stored under the same key |
| `Dedup.LastSeqNeverDecreases` | src/worker/worker-consumer.service.ts:299-308 | with distinct keys no entry of the map goes down or disappears before a crash |
| `Dedup.InitDedup` | src/worker/worker-consumer.service.ts:72-72 | an empty map satisfies the dedup invariant |
| `Dedup.RunKeepsDedup` | src/worker/worker-consumer.service.ts:282-308 | while keys tell devices apart the dedup invariant holds in every run, with redeliveries in any order and crashes |
| `Dedup.ColonFreeRunIsDistinct` | src/worker/worker-consumer.service.ts:286-286 | keys tell devices apart in every run whose user ids hold no colon |
| `Dedup.RunNeverForgets` | src/worker/worker-consumer.service.ts:299-308 | over a whole worker lifetime the stored number of a device never goes down |
| `Replay.ReplayedIsFoldOfPrefix` | src/locations/locations.service.ts:138-174 | the replay of a prefix of a user's messages is the plain left fold of transitions over the user's events in that prefix |
| `Replay.ReplayEndsAtLatest` | src/locations/locations.service.ts:189-196 | after the latest message done for a user, presence is what that message covers |
| `ExactlyOnce.OnceNext` | src/worker/worker-consumer.service.ts:217-264 | every calm step, a crash at any point included, keeps each user's rows equal to the replay of the messages that took effect |
| `ExactlyOnce.OrderKeptExactlyInPlace` | src/worker/worker-consumer.service.ts:262-262 | for a user's oldest delivery, going back keeps the queue in order if and only if no other delivery of the user is out and it does not go behind a queued message of the user |
| `ExactlyOnce.RunKeepsOnce` | src/worker/worker-consumer.service.ts:217-264 | so does every calm run |
| `ExactlyOnce.RowsAreFoldOfPrefix` | src/worker/worker-consumer.service.ts:217-264 | at every moment each user's rows are the plain fold over a prefix of that user's events, namely those that took effect |
| `ExactlyOnce.AtMostOneUnackedEffect` | src/worker/worker-consumer.service.ts:246-248 | at most one message of a user has taken effect without being acked, and it is the user's oldest open message |
| `ExactlyOnce.ReprocessingChangesNothing` | src/locations/locations.service.ts:100-109 | a redelivered message that already took effect never opens a transaction again |
| `ExactlyOnce.NeverDuplicate` | src/worker/worker-consumer.service.ts:282-297 | with growing numbers above the seed no open message is taken for a duplicate |
| `ExactlyOnce.DrainedUserIsFolded` | src/worker/worker-consumer.service.ts:217-264 | once nothing of a user is queued or out, the user's log and presence are the fold over all of the user's events |
| `ExactlyOnce.ExactlyOnceThroughCrashes` | src/worker/worker-consumer.service.ts:36-38 | exactly-once effect through crashes: from the initial state, after any calm run, a drained user's final rows equal a plain left fold over the published events |
| `ExactlyOnce.EveryMomentIsAFoldOfPrefix` | src/worker/worker-consumer.service.ts:36-38 | at every moment of every calm run from the initial state a user's rows are the fold over a prefix of the user's events, and of the open messages at most the oldest is in it |
| `ExactlyOnce.EveryEventTakesEffectOnce` | src/worker/worker-consumer.service.ts:36-38 | from wherever a calm run has got to, some continuation without publications brings every user's rows to the fold over all published events |
| `Turns.RowsFollowTheTurns` | src/worker/worker-consumer.service.ts:217-264 | with one snapshot and no deletion, whatever crashes and wherever nacked messages come back, each user's rows are the left fold over the user's events in the order in which their reports ended |
| `Turns.GateAcksTheOvertaken` | src/worker/worker-consumer.service.ts:282-297 | while keys tell devices apart the dedup gate acks exactly the events at or below the seed or at or below a number with which the device has succeeded since the worker started |
| `Turns.LostExactlyWhenOvertakenOrDropped` | src/worker/worker-consumer.service.ts:223-259 | in such runs an acked event never took effect if and only if it had had no turn and was acked at the gate in that way or dropped because an area it would have entered did not exist |
| `Turns.CompleteExactlyWhenNoneIsLost` | src/worker/worker-consumer.service.ts:217-264 | all events of a user whose messages are all acked took effect if and only if none was lost or dropped in that way |
| `Turns.DropsNeedDeletions` | src/worker/worker-consumer.service.ts:250-259 | while no area is deleted nothing is dropped |
| `Scenarios.NackedEventIsLost` | src/worker/worker-consumer.service.ts:261-262 | a run from the start: an entry is nacked, a later number of the device succeeds, the entry is acked as a duplicate when it comes back and is never logged |
| `Scenarios.NackedEventComesLate` | src/worker/worker-consumer.service.ts:261-262 | a run from the start without numbers, in which one database read rejects: every message is acked with its effect, and the table says the user is inside an area that the last published event had left |
| `WritePath.CommitIsOneTransition` | src/locations/locations.service.ts:115-178 | under the lock a commit leaves presence exactly equal to the current areas that exist, logs exactly the newly entered ones, and touches no other user |
| `WritePath.QuietStateFits` | src/locations/locations.service.ts:115-178 | any balanced tables without open transactions are a state to start from |
| `WritePath.RunIsSerial` | src/locations/locations.service.ts:115-178 | any statement-level interleaving, with rollbacks anywhere and areas created and deleted, leaves the tables of the committed reports run one after the other in commit order |
| `WritePath.LogsAreConserved` | src/locations/locations.service.ts:148-174 | in every reachable state, lock or no lock, the log rows of a user and an existing area are the presence rows removed by exits plus one if the user is inside |
| `WritePath.IdenticalReportsLogOnce` | src/locations/locations.service.ts:149-165 | any number of simultaneous reports that all place the user in an area log it once if it was not held before, else never, even without the lock |
| `WritePath.NoDeadlock` | src/migrations/1786118827443-CreateLockedPresenceReadFunction.ts:19-20 | under the lock, whenever transactions are open at least one waits for no lock and no row, rows deleted one by one in any order |
| `WritePath.NoDeadlockInOrder` | src/locations/locations.service.ts:142-149 | without the lock, the ascending inserts are enough as long as the deletes visit their rows in ascending order too |
| `WritePath.UnlockedDeletesCanDeadlock` | src/locations/locations.service.ts:167-174 | without the lock, two exits that delete the same two rows in opposite orders end up waiting for each other |
| `WriteProgress.MovesExactlyUnlessWaiting` | src/locations/locations.service.ts:115-178 | a transaction has a statement or its commit to carry out if and only if it waits for nobody and its next insert names an area that exists |
| `WriteProgress.SomebodyMoves` | src/locations/locations.service.ts:115-178 | under the lock, whenever transactions are open one can take its next step or learns that the area it would enter is gone |
| `WriteProgress.SomebodyMovesInOrder` | src/locations/locations.service.ts:142-174 | the same without the lock, as long as the deletes visit their rows in ascending order |
| `WriteProgress.HolderCommits` | src/locations/locations.service.ts:115-178 | whoever holds the lock, or finds it free, and has only existing areas to enter commits by steps of its own, with the whole transition in the tables and nothing else changed |
| `WriteProgress.CommitsExactlyWhenAreasExist` | src/locations/locations.service.ts:148-178 | it can commit by itself if and only if every area it has to enter exists |
| `WriteProgress.EveryReportCanCommit` | src/locations/locations.service.ts:148-178 | whatever else is going on, a report of any user, areas and time opens its transaction and runs by its own steps to the commit of the whole transition, as long as nobody with the same lock key is past the lock statement and every area newly entered exists |
| `WriteProgress.RollbackLeavesNoTrace` | src/locations/locations.service.ts:115-178 | a transaction can be rolled back after any of its steps, and the state is then the one before it began |
| `UserChains.StartsInDeliveryOrder` | src/worker/worker-consumer.service.ts:197-198 | a task may begin if and only if every earlier task of its user has settled |
| `UserChains.OneTaskPerUser` | src/worker/worker-consumer.service.ts:196-210 | two running tasks of one user are the same task |
| `UserChains.MapHoldsNewestTail` | src/worker/worker-consumer.service.ts:203-203 | while a task of a user is unsettled the map holds that user's newest tail |
| `UserChains.CleanupSparesNewerChains` | src/worker/worker-consumer.service.ts:204-208 | an entry that a cleanup removes was the cleaned tail itself, and its user has nothing unsettled |
| `UserChains.RunKeepsFits` | src/worker/worker-consumer.service.ts:196-210 | these facts hold in every run of appends, starts, settlements and cleanups |
| `UserChains.EveryRunIsOnePerUser` | src/worker/worker-consumer.service.ts:196-210 | in every run from empty chains a running task is its user's only running and oldest unsettled one, and the map holds the newest tail of every user with unsettled tasks |
| `UserChains.EveryTaskGetsItsTurn` | src/worker/worker-consumer.service.ts:196-210 | from wherever a run has got to, every task can be brought to its end by starting and settling tasks of its user alone, without any cleanup |
| `UserChains.MapTailsDominate` | src/worker/worker-consumer.service.ts:148-148 | when the tails in the map have settled, every task has |
| `UserChains.DrainWaitsForEverything` | src/worker/worker-consumer.service.ts:139-155 | in any run without new messages, when the tails collected at shutdown have settled, so has every delivery |
| `UserChains.CleanedUpMapIsEmpty` | src/worker/worker-consumer.service.ts:204-208 | after all cleanups the map is empty |
| `UserChains.ChainsAreOneQueuePerUser` | src/worker/worker-consumer.service.ts:196-210 | the unsettled tasks change like the unacked deliveries of the pipeline: append on arrival, removal on settlement |
| `UserChains.StartGuardIsFirstOfUser` | src/worker/worker-consumer.service.ts:197-198 | the promise guard of a task is the guard the pipeline uses: no task of its user stands before it |
| `Lists.DiffersIsSetInequality` | src/locations/locations.service.ts:225-231 | for a current list without repetitions, no difference is reported if and only if the sets are equal and the previous list has no repetition |
| `Lists.SameListsCoverCurrent` | src/locations/locations.service.ts:225-231 | when no difference is reported every current area was in the previous list |
| `Lists.RepetitionsHideAnExit` | src/locations/locations.service.ts:225-231 | with repetitions in the current list an exit can go unreported |
| `LocationsService.PresenceMemoryService.Set` | src/presence/presence-memory.service.ts:28-30 | replaces one user's entry |
| `LocationsService.PresenceMemoryService.Get` | src/presence/presence-memory.service.ts:24-26 | the entry, or nothing for a user not remembered |
| `LocationsService.InsertEntered` | src/locations/locations.service.ts:148-165 | conflicting inserts write nothing; every real insert is logged and reported once, in ascending order; a missing area or a lost connection stops the loop with an error |
| `LocationsService.CheckSeq` | src/locations/locations.service.ts:122-136 | says whether the device's stored number covers the report, else the state to commit |
| `LocationsService.DraftTransition` | src/locations/locations.service.ts:138-176 | the row changes are the transition; something was written exactly when the current areas differ from the presence read |
| `LocationsService.Transact` | src/locations/locations.service.ts:115-178 | commits the whole transition and the number, or a duplicate and nothing, or an error and nothing; the errors are a missing area and an unavailable database |
| `LocationsService.LocationsService.ReadHint` | src/locations/locations.service.ts:82-98 | the hint comes from the memory, from a cache hit, or from an unlocked read, and a cold memory is seeded from the table only |
| `LocationsService.LocationsService.TakeChangePath` | src/locations/locations.service.ts:115-213 | after a commit the memory holds the current areas and the key is deleted; after a duplicate the memory is as before; after an error nothing changed |
| `LocationsService.LocationsService.FillAfterMiss` | src/locations/locations.service.ts:105-107 | the key is written only after a clean miss |
| `LocationsService.LocationsService.Report` | src/locations/locations.service.ts:53-214 | result, tables, memory and cache of one report in every case; with an exact memory the tables end up at the transition whether or not a transaction was opened, and the memory stays exact |
| `LocationsService.NothingToDo` | src/locations/locations.service.ts:104-109 | no difference to an exact hint means the transition would have written nothing |
| `LocationsService.ListingDiffers` | src/locations/locations.service.ts:217-231 | compared with an unlocked read, in whatever order its rows come, the outcome depends only on the set of rows |
| `WorkerConsumer.OnlyAreaReferencesQualify` | src/worker/worker-consumer.service.ts:270-280 | of the constraints of the two tables exactly the two area references are treated as a stale area |
| `WorkerConsumer.NamesDecide` | src/worker/worker-consumer.service.ts:270-280 | a foreign key violation counts as a stale area if and only if its constraint's name contains the word |
| `WorkerConsumer.WorkerConsumerService.Handle` | src/worker/worker-consumer.service.ts:166-186 | an unparseable message or another version is rejected without touching the chains; any other is appended to its user's chain |
| `WorkerConsumer.WorkerConsumerService.Enqueue` | src/worker/worker-consumer.service.ts:196-203 | appends a tail behind the user's current one and keeps the chain invariant |
| `WorkerConsumer.WorkerConsumerService.CleanUp` | src/worker/worker-consumer.service.ts:204-208 | an entry disappears only if every task of its user is done |
| `WorkerConsumer.WorkerConsumerService.TailsToAwait` | src/worker/worker-consumer.service.ts:148-148 | every unsettled delivery is, or precedes, an awaited tail of its user |
| `WorkerConsumer.WorkerConsumerService.IsDuplicate` | src/worker/worker-consumer.service.ts:282-297 | the answer compares with the remembered number, else the stored one, else 0, and the table is asked only for an unknown device |
| `WorkerConsumer.WorkerConsumerService.RememberSeq` | src/worker/worker-consumer.service.ts:299-308 | the device's number becomes the highest of what was remembered and the event's |
| `WorkerConsumer.WorkerConsumerService.ProcessEvent` | src/worker/worker-consumer.service.ts:217-264 | one settlement per call; an ack means a repeat, no change, exactly one transition, or a missing area; only success is remembered; a nack changes no row; with an exact memory an acked new event's transition is in the tables |
| `WorkerConsumer.PipelineAsksTheSame` | src/worker/worker-consumer.service.ts:282-297 | the two dedup steps of the pipeline ack exactly when this check says duplicate, and leave the same map |
| `PresenceCache.KeyIsInjective` | src/presence/presence-cache.service.ts:84-86 | different users have different keys |
| `PresenceCache.PresenceCacheService.Get` | src/presence/presence-cache.service.ts:37-47 | a hit is the living value; a miss means there is none; an error says neither |
| `PresenceCache.PresenceCacheService.Populate` | src/presence/presence-cache.service.ts:55-63 | when carried out, the value shows exactly until the lifetime for its value has passed; other users' keys are untouched |
| `PresenceCache.PresenceCacheService.Invalidate` | src/presence/presence-cache.service.ts:72-82 | a positive answer means the key is gone at every time; the answer is negative exactly when the command was not answered |
| `PresenceCache.RunFits` | src/presence/presence-cache.service.ts:9-23 | in every run the key holds what its writer read after a clean miss, with the lifetime for that value |
| `PresenceCache.HitIsBoundedPast` | src/presence/presence-cache.service.ts:37-63 | every hit equals presence as it stood at the unlocked read of the report that wrote the key, and was written less than the lifetime for its value ago |
| `PresenceCache.EveryHitIsBoundedPast` | src/presence/presence-cache.service.ts:37-63 | at the end of every run from an empty cache, what Redis would show is the presence that its writer, a report with a clean miss, had read while it stood, written less than the lifetime for its value ago and read less than that plus the delay of its write ago |
| `PresenceCache.OnlyCleanMissesFill` | src/locations/locations.service.ts:104-107 | a key changes to a new value only by a report that saw a clean miss and no difference |
| `PresenceCache.GetRecordsTheAnswer` | src/presence/presence-cache.service.ts:37-47 | a report records a miss if and only if Redis answered and showed nothing, a hit if and only if it answered with the key, an error if and only if it did not answer |
| `PresenceCache.EveryWriteFollowsACleanMiss` | src/presence/presence-cache.service.ts:11-15 | in every run from an empty cache, whatever step gives the key a new value is the write of a report whose own GET was answered when nothing was shown |
| `PresenceCache.EveryCommitTriesItsDelete` | src/locations/locations.service.ts:197-211 | in every run, a report that has committed ends only after it has tried to delete the key |
| `PresenceCache.OneReportAlone` | src/locations/locations.service.ts:82-213 | a report that meets no other, for every answer of Redis: without a difference to its hint the table stays and the key is written only after a clean miss, with one the presence is replaced and the key deleted |
| `PresenceCache.SuppressedEntryHasStaleHint` | src/locations/locations.service.ts:93-109 | a report let off although it entered an area had that area in its hint, the hint is older than the present table and not empty, and a cached one was read within the lifetime of a non-empty value |
| `PresenceCache.EmptyHintSuppressesNoEntry` | src/presence/presence-cache.service.ts:49-54 | a hint of no areas lets off only reports that are in no area |
| `PresenceCache.EverySuppressionIsStale` | src/locations/locations.service.ts:93-109 | in every run from an empty cache, a suppressed entry comes with an outdated hint that holds the area |
| `PresenceCache.DeletedKeyReturnsOnlyByEarlyReaders` | src/presence/presence-cache.service.ts:65-82 | after a successful delete an older presence comes back into the cache only through reports that had read it before the delete and find no difference |
| `PresenceCache.OldPresenceReturnsExactlyWhenCarried` | src/presence/presence-cache.service.ts:65-82 | some run after the delete shows an older presence again if and only if there is such a report |
| `PresenceCache.YoungExactlyWhenPrompt` | src/presence/presence-cache.service.ts:15-19 | for either kind of value and every delay, at all times of the run and after it what Redis shows was read less than the delay plus the lifetime ago, if and only if every key of that kind was written at most the delay after its report's unlocked read |
| `PresenceCache.SuppressionIsBounded` | src/presence/presence-cache.service.ts:15-19 | then a hit that lets an entry off was given less than the delay plus the lifetime of a non-empty value after the presence it shows had ended |
| `PresenceCache.LateWriterIsReachable` | src/locations/locations.service.ts:93-107 | a run to the state in which a report still holds a presence read any given time ago |
| `PresenceCache.StaleHitCanSuppressAnEntry` | src/locations/locations.service.ts:93-109 | from there a later report is let off although it entered its area, on a hit in the last second before the delay plus the lifetime has passed since the exit |
| `AreaSnapshot.AreaSnapshotService.EnqueueRebuild` | src/areas/area-snapshot.service.ts:96-100 | the new rebuild has no turn exactly while an earlier one is unfinished, takes nobody's turn and is recorded as enqueued now, the snapshot staying as it is |
| `AreaSnapshot.AreaSnapshotService.Install` | src/areas/area-snapshot.service.ts:113-115 | afterwards the snapshot holds the tables of a moment at or after the enqueueing of this rebuild, and neither its moment nor its label has gone back |
| `AreaSnapshot.AreaSnapshotService.Poll` | src/areas/area-snapshot.service.ts:80-94 | when no rebuild is enqueued the snapshot already holds every area created before the answer, deletions apart; otherwise one is enqueued now |
| `AreaSnapshot.AreaSnapshotService.Areas` | src/areas/area-snapshot.service.ts:68-73 | no answer before the first build; afterwards the areas of the tables at one moment, which the label does not outrun |
| `AreaSnapshot.StartFits` | src/areas/area-snapshot.service.ts:41-46 | a process just started satisfies the snapshot invariant |
| `AreaSnapshot.RunFits` | src/areas/area-snapshot.service.ts:80-120 | the snapshot invariant holds under any interleaving of creations, deletions, polls, refreshes and failed rebuilds |
| `AreaSnapshot.SnapshotIsConsistent` | src/areas/area-snapshot.service.ts:102-120 | the snapshot equals the tables at one past moment, and its label is at most the version then, which is at most the current one |
| `AreaSnapshot.SnapshotNeverGoesBack` | src/areas/area-snapshot.service.ts:43-46 | neither the label nor that moment ever goes back |
| `AreaSnapshot.EveryRunIsConsistent` | src/areas/area-snapshot.service.ts:80-120 | from the start of a process and in every continuation, the snapshot equals the tables at one moment, is labelled no newer, and neither label nor moment goes back |
| `AreaSnapshot.QuietPollMissesNothing` | src/areas/area-snapshot.service.ts:80-94 | when a poll decides not to rebuild, every area created before its query was answered had been created when the snapshot's rows were read |
| `AreaSnapshot.ResolvedRefreshIsFresh` | src/areas/area-snapshot.service.ts:75-78 | when a refresh resolves, the snapshot's rows were read no earlier than its enqueueing, whatever older rebuilds did |
| `AreaSnapshot.FailurePassesTheTurn` | src/areas/area-snapshot.service.ts:96-100 | after a failed rebuild the next one of the chain, waiting or enqueued later, can start at once, and the snapshot is as it was |
| `AreaSnapshot.EveryRefreshCanResolve` | src/areas/area-snapshot.service.ts:75-120 | from wherever a run has got to, whichever older rebuilds fail on the way, the rebuilds alone bring every unfinished one to its installation, and one that had not read its rows installs the areas of now |
| `AreaSnapshot.PollBringsCreations` | src/areas/area-snapshot.service.ts:80-94 | from wherever a run has got to, one poll and the rebuilds alone lead to a snapshot that holds every area existing now |
| `AreaSnapshot.CreatorReadsOwnArea` | src/areas/areas.service.ts:39-53 | after create resolves every later lookup in any continuation uses rows read no earlier than the commit, in which the area had been created |
| `AreaSnapshot.CreatorSeesOwnArea` | src/areas/areas.service.ts:39-53 | unless somebody deletes it, the creator's area is in every later snapshot of the process |
| `AreaSnapshot.PollsNeverSeeDeletions` | src/areas/area-snapshot.service.ts:80-94 | from an up-to-date idle state, any number of polls and deletions leaves the snapshot as it is until a creation or a refresh |
| `AreaSnapshot.SnapshotKeepsDeletedArea` | src/areas/area-snapshot.service.ts:80-120 | a run from the start of a process to an up-to-date idle state whose snapshot holds a deleted area |
| `AreaSnapshot.PollsKeepDeletedArea` | src/areas/area-snapshot.service.ts:80-94 | there it stays in every continuation without a creation or a refresh |
| `AreaSnapshot.AbsentExactlyAfterDeletion` | src/areas/area-snapshot.service.ts:102-120 | a deleted area is absent from the snapshot if and only if the rows were read at or after the deletion, or before the creation |
| `AreaSnapshot.QuietPollAfterCreationSeesDeletion` | src/areas/area-snapshot.service.ts:80-94 | when a poll asked after a creation later than the deletion decides not to rebuild, the deleted area is absent |
| `GeoJsonPolygon.RingFailure` | src/areas/dto/geojson-polygon.validation.ts:27-56 | no failure if and only if the ring is acceptable; a failure names a real defect and everything before it is right |
| `GeoJsonPolygon.GeoJsonPolygonFailure` | src/areas/dto/geojson-polygon.validation.ts:14-63 | no failure if and only if type, rings, closure, ranges and vertex count are acceptable; a ring failure names the first bad ring, and the count is exact |
| `SpatialIndex.ToIndexedArea` | src/areas/spatial-index.ts:20-32 | the box is the smallest one around the outer ring, with the infinities for an empty ring |
| `SpatialIndex.StraddleParity` | src/areas/spatial-index.ts:34-40 | a path crosses a horizontal line an odd number of times if and only if its ends lie on different sides |
| `SpatialIndex.ClosedRingIsSilentOutside` | src/areas/spatial-index.ts:51-58 | a closed ring neither touches a point outside its box nor changes the parity there |
| `SpatialIndex.OnlyHolesReachOut` | src/areas/spatial-index.ts:19-32 | outside the outer ring's box an area covers a point if and only if its holes alone would |
| `SpatialIndex.EdgesHaveNoDirection` | src/areas/spatial-index.ts:54-56 | the exact test does not depend on the direction in which an edge is listed |
| `SpatialIndex.CoversOfRectangle` | src/areas/spatial-index.ts:38-40 | on a rectangle the exact test is the comparison of coordinates, border included |
| `Coverage.CoversOfRectangleWithHole` | src/areas/spatial-index.ts:54-56 | a rectangle with a rectangular hole strictly inside covers exactly the closed rectangle without the open hole |
| `Coverage.CoversOfTriangle` | src/areas/spatial-index.ts:38-40 | a triangle of any shape covers exactly the convex combinations of its corners, the boundary included |
| `Coverage.RingFlipsItsInside` | src/areas/spatial-index.ts:54-56 | off all boundaries one more ring flips coverage exactly at the points that the ring alone covers |
| `Coverage.CoversOfRing` | src/areas/spatial-index.ts:54-56 | a closed ring of any shape covers a point off its edges and off the diagonals from its first corner exactly when the point lies in an odd number of the triangles of that fan |
| `Coverage.CoversOfPolygon` | src/areas/spatial-index.ts:54-56 | so for polygons of any number of closed rings, holes included, with the fans of all rings |
| `SpatialIndex.PrefilterLosesNothing` | src/areas/spatial-index.ts:51-58 | box search and exact test give the full scan if and only if no area covers the point outside its own box |
| `SpatialIndex.RingsInTheirBoxesNeverReachOut` | src/areas/spatial-index.ts:19-32 | for closed rings that lie in the outer ring's box that is so at every point |
| `SpatialIndex.ReachingOutIsAboutHoles` | src/areas/spatial-index.ts:19-19 | for closed outer rings the condition is about holes only |
| `SpatialIndex.HoleOutsideTheBoxIsLost` | src/areas/dto/geojson-polygon.validation.ts:9-14 | a polygon that passes the structural check and is covered at a point outside its box |
| `SpatialIndex.AreaSpatialIndex.constructor` | src/areas/spatial-index.ts:46-49 | the tree holds every row with the box of its outer ring |
| `SpatialIndex.AreaSpatialIndex.Search` | src/areas/spatial-index.ts:52-53 | the entries whose box meets the point, in any order |
| `SpatialIndex.AreaSpatialIndex.FindCoveringAreaIds` | src/areas/spatial-index.ts:51-58 | the answer is the scan's up to order if and only if no area covers the point outside its own box; distinct ids are found once |
| `LogsKeyset.BuildConditions` | src/logs/logs.service.ts:30-51 | the conditions with their numbered parameters hold of exactly the rows that match the filters and lie below the cursor |
| `LogsKeyset.Select` | src/logs/logs.service.ts:54-61 | the largest matching rows in descending order, as many as the limit allows |
| `LogsKeyset.CutIsPage` | src/logs/logs.service.ts:63-78 | asking for one row more is enough to know whether and where to go on |
| `LogsKeyset.List` | src/logs/logs.service.ts:29-79 | a page holds exactly the matching rows between its cursor and its next cursor, by recording time descending and for equal times by id descending, all of them older than the cursor or equally old with a smaller id; there is a next cursor, the columns of the last row, exactly when matching rows remain below; a malformed cursor is refused |
| `LogsKeyset.WalkDescends` | src/logs/logs.service.ts:23-28 | the rows of a walk, whatever is inserted, deleted or filtered in between, descend strictly by time and then by id, and none comes twice |
| `LogsKeyset.RowsOfWalk` | src/logs/logs.service.ts:46-51 | a walk returns a row if and only if the request whose window it falls into found it in its table, matching |
| `LogsKeyset.WalkMissesNothing` | src/logs/logs.service.ts:23-28 | a finished walk returns every row that was there and matched throughout |
| `LogsKeyset.WalkOfFixedTable` | src/logs/logs.service.ts:29-79 | over a table that does not change the walk is exactly the matching rows, each once |
| `LogsKeyset.WalksAreBounded` | src/logs/logs.service.ts:63-78 | when rows come from a fixed set only, a walk has at most one request more than the set has rows |
| `LogsKeyset.WalkToTheEnd` | src/logs/logs.service.ts:29-79 | a client that follows the next cursor over a table that does not change comes to the end |
| `LogsKeyset.ShownTimesWouldSkip` | src/logs/logs-cursor.ts:3-12 | a cursor made of the millisecond times that items show would skip a row |
| `PartitionSpec.Parse` | src/config/worker.config.ts:21-38 | the strictly ascending list of exactly the partitions that some segment lists, or the first segment that is malformed or ends before it starts |
| `PartitionSpec.ParseIsUnique` | src/config/worker.config.ts:21-38 | that determines the result |
| `PartitionSpec.NeverEmpty` | src/config/worker.config.ts:21-38 | a specification that parses lists at least one partition |
| `PartitionSpec.SegmentIsExact` | src/config/worker.config.ts:24-29 | a segment is well-formed if and only if it is digits, or digits, a hyphen and digits, with spaces around, and it means the numbers read |
| `PartitionSpec.PatternParses` | src/config/env.validation.ts:57-59 | every string of the environment pattern parses if and only if no range ends before it starts, and lists exactly what its items name |
| `PartitionSpec.PrintThenParse` | src/config/worker.config.ts:21-38 | printing a result with commas and parsing it again gives it back |

## Left out

- ExactlyOnceThroughCrashes: assumes, besides crashes at any step, a fixed area snapshot, no area deleted, no message dead-lettered, well-formed events with growing numbers, and nacked messages put back in their place; what happens when they come back elsewhere is said by `Turns` and `Scenarios`.
- RowsFollowTheTurns: assumes a fixed area snapshot and no area deleted.
- LostExactlyWhenOvertakenOrDropped: assumes that dedup keys tell devices apart.
- MaximalRunsSettleAll: in the worker's own steps no await rejects but that of a reading that fails the accuracy gate.
- SuppressionIsBounded: one clock for all processes; a write that Redis carries out later than it was sent counts with the later time.
- OthersAlwaysSettle: its lock condition is sufficient, not necessary (`SettleExactlyUnlessOneOpens` is exact); it shows that a settling continuation exists, and that the scheduler eventually takes it is not modelled.
- NoDeadlockInOrder: one way only; deletes in different orders need not meet.
- AreaSpatialIndex.Search: the tree itself (rbush) is not modelled, only the contract of its search.
- Select: PostgreSQL is not modelled, only what a statement with these conditions, order and limit answers.
- Several partition queues per worker: one queue stands for all, and prefetch, which only delays deliveries, is not modelled, so the runs here include those of every prefetch.
- The size of the database connection pool and statement timeouts.
- A commit whose outcome the client does not learn.
- The early return for a duplicate inside the statement-level transaction machine; `LocationsService` has it, and the worker never takes it.
- Area ids are naturals whose order stands for the order of id strings; coordinates are exact numbers, so rounding in the geometry library is not modelled.
- Geometric validity of polygons (`ST_IsValid`) and the PostGIS reference query.
- JSON parsing of messages and cursors and the text checks on the cursor's parts: a message or cursor is well-formed or it is not.
- Partition numbers beyond 2 to the power 53, where the program's numbers lose precision.
- AMQP connection set-up, reconnection, publisher confirms, process exit, metrics counters other than the two of the worker and the no-op of a change path, logging, HTTP controllers and configuration loading.
