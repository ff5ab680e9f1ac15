# tinyflows: a verified model of its stateful cores

A Dafny model of the parts of tinyflows where state, concurrency or recursion make
correctness hard to see, with machine-checked proofs of what they promise. It stands
beside the Rust sources and shares no code with them. `dafny verify dfyconfig.toml`
checks everything.

## What is modelled

- **Pending-write ledgers** (`PendingWrites`, `LedgerHistory`, `LedgerUpdates`). A
  ledger is written by live runs and by a legacy importer. Both update loops are
  methods proved against functions; both functions are proved to be folds of
  one-write steps, from which the contents after every history follow, and the
  compare-and-swap retry loop is a step relation proved to be linearisable.
- **The checkpoint store** (`CheckpointStore`, `CheckpointLaws`, `SequenceNumbers`).
  An append-only store with per-thread counters. The bulk lineage read is proved
  against the hop-by-hop one, with the exact condition under which they agree, every
  read against a plain list per thread, and sequence numbers are used once under
  concurrent writers.
- **The run lifecycle** (`RunLifecycle`, `RunRegistration`, `RunWakeups`, `RunRows`,
  `RunExclusivity`, `RunPoaching`, `RunRestarts`, `ActiveRuns`). StartRun, ResumeRun,
  CancelRun, the sweep of parked runs and the actors they spawn, interleaved at the
  grain of one lock section, one atomic access, one storage operation or one
  notification, over storage that may fail and still have taken effect, and that other
  processes may share. Some steps merge adjacent operations of one call: `CancelReading`
  reads the row, its snapshot and the lease's run, `Failing` reads and settles the row,
  `Inserting` rechecks the workflow, `SweepLooking` looks the run up by lease and then by
  key, `ReadingPhase` loads the phase twice, and `CancelLooking` looks a run up and loads
  its phase twice, and may pass over a run that the code would have signalled.
  Safety is an inductive invariant over every run. `RunLifecycle` holds the protocol; the others hold what is proved of it.
- **The event stream** (`RunEvents`): appends, the terminal cursor, pages, and
  clients that poll while the stream grows.
- **The in-flight registry** (`RunRegistry`): registrations, guards and cancellation
  tokens over every history.
- **Legacy import** (`LegacyRecords`, `LegacyCheckpoints`, `LegacyReplay`,
  `LegacyBatch`): accounting across two groupings and four functions, what a batch
  leaves behind, and what importing it again does.
- **Graph content and policy** (`GraphHash`, `GraphPolicy`): the canonical JSON form,
  the bounded search for side effects, the reachability walk.
- **The adaptive loop** (`Promotion`, `Recall`, `Digest`, `Reuse`): the champion of a
  family, which lessons are shown, the FNV-1a identity (section 2 of
  draft-eastlake-fnv), and the search for pasted inputs.

`Common`, `Json` and `TextOrder` hold shared types and the order of strings.

## How to read it

Where the sources change an object in place there is a class or a method with a loop,
and its contract names a function of the old state. The laws are lemmas about those
functions. A state machine has a `State`, `Enabled`, `Next` and `IsRun`, and its
theorems quantify over every index of every run.

Storage failures, the order of concurrent steps, decoding results, random lease ids
and time enter as parameters or as choices of the step relation. Integers are
unbounded except in the digest, where the wrap-around is written out.

## Where the code and its documentation differ

- The documentation of `state_history` calls the bulk answer identical to the
  hop-by-hop one (crates/tinyflows/src/graph/checkpoint/mod.rs:237-252). The bulk read
  decodes every record of the namespace and the writes of every ledger of it, so what
  does not decode makes it fail even off the lineage (`UndecodableOffLineage`,
  `CorruptOffLineage`). The hop-by-hop walk decodes whole ledger documents, so one whose
  other fields do not decode fails that walk alone (`WritesOnlyOnLineage`). The two agree
  exactly when both, or neither, meet something that does not decode (`HistoriesAgree`).
- CancelRun reads the map of active runs twice (crates/tinyflows-module/src/run_manager.rs:424-433).
  A run registered between the two reads can be settled and unregistered while StartRun
  is still admitting it, and then runs without being registered.
  `PoachedRunIsUnregistered` exhibits it. `LiveRunsAreRegistered` sets aside the runs a
  canceller set out to unregister while they were reserving or running, and
  `RegisteredExactly` shows that those are exactly the live runs that are not registered,
  once no call is still about to unregister them.
- A run id is started at most once as long as its row exists. Retention and the removal
  of a workflow drop rows, and then the id is free again: `StartsAreExclusive` gives the
  bound with drops counted and `BoundIsReached` shows that it is attained. If the run was
  also poached, the old actor and the new one can overlap (`TwoActors`).
- Importing a legacy batch twice is not always the same as importing it once: a revision
  or run placed before its owner flow is refused the first time and placed the second
  (`LateOwner`). `SecondPassChangesNothing` says exactly when the second import changes
  nothing, and a third never does (`SecondPassSettles`).

## Model

| member | source | states |
|---|---|---|
| PendingWrites.MergeWrites | crates/tinyflows/src/graph/checkpoint/types.rs:405-426 | the loop that edits the list in place is the fold of one-write merges: a control write (negative index) replaces the held one where it stands, a data write is kept only if its identity is new; a zero count means nothing changed |
| PendingWrites.PutLiveWrites | crates/tinyflows-drivers/src/checkpoint_import.rs:28-50 | the live writer's update: merged writes, and exactly the identities of control writes and of data writes not yet held lose their import marker |
| PendingWrites.GroupIncoming | crates/tinyflows-drivers/src/checkpoint_import.rs:83-96 | grouping by identity: the last control write or the first data write stands for its group, with the number of records behind it |
| PendingWrites.ImportOneGroup | crates/tinyflows-drivers/src/checkpoint_import.rs:113-143 | one group against the ledger: what is appended, what is overwritten (only a control write still marked as imported), what is marked, and which counter each record goes to |
| PendingWrites.ImportWritesIfAbsent | crates/tinyflows-drivers/src/checkpoint_import.rs:83-148 | the importer's update and counters; written + existing is the number of incoming records, and the document is left alone exactly when the import would not change it |
| PendingWrites.GroupedTotal | crates/tinyflows-drivers/src/checkpoint_import.rs:83-96 | the group sizes add up to the number of incoming records |
| PendingWrites.GroupedIsDistinct | crates/tinyflows-drivers/src/checkpoint_import.rs:83-96 | no identity is in two groups |
| PendingWrites.ImportCounts | crates/tinyflows-drivers/src/checkpoint_import.rs:100-148 | every incoming record is counted once, and nothing is counted as written exactly when the ledger stays as it was |
| LedgerHistory.LiveBatchIsReplay | crates/tinyflows-drivers/src/checkpoint_import.rs:37-48 | a live batch, markers judged against the ledger before it, equals its writes taken one at a time |
| LedgerHistory.ImportBatchIsReplay | crates/tinyflows-drivers/src/checkpoint_import.rs:83-143 | a grouped import equals its writes imported one at a time |
| LedgerHistory.ImportCutIndependent | crates/tinyflows-drivers/src/checkpoint_import.rs:83-143 | importing a ++ b in one call leaves the same writes, order and markers as importing a and then b |
| LedgerHistory.RunIsReplay | crates/tinyflows-drivers/src/checkpoint_import.rs:26-145 | any history of live and import batches equals the history of its single writes |
| LedgerHistory.LedgerAfterHistory | crates/tinyflows-drivers/src/checkpoint_import.rs:26-145 | after every history from an empty ledger: identities unique and in order of first touch; a control identity holds the last live write, or the last imported one if no live write ever touched it; a data identity the first write from either; marked as imported are exactly the control identities no live write touched |
| LedgerHistory.ReimportWritesNothing | crates/tinyflows-drivers/src/checkpoint_import.rs:66-148 | importing a batch again writes nothing and changes nothing, even after live writes in between |
| LedgerUpdates.NextKeepsLinearised | crates/tinyflows-drivers/src/checkpoint_import.rs:26-63 | every step of concurrent read-compute-compare-and-swap writers, with retries and refusals, keeps the document equal to a log of whole batches |
| LedgerUpdates.RunIsLinearised | crates/tinyflows-drivers/src/checkpoint_import.rs:101-148 | in every state of every concurrent run each finished writer is in the log once, where its counters were computed, or changed nothing there |
| LedgerUpdates.ConcurrentLedger | crates/tinyflows-drivers/src/checkpoint_import.rs:26-145 | under concurrency too, a ledger started empty obeys the rule of `LedgerAfterHistory` for the committed order |
| CheckpointStore.NewestIsHighest | crates/tinyflows-drivers/src/checkpoint.rs:181-189 | the descending query limited to one finds the highest-numbered admitted record and misses none |
| CheckpointStore.ScopedFinds | crates/tinyflows-drivers/src/checkpoint.rs:249-263 | a scoped read answers with a record of that thread, namespace and id |
| CheckpointStore.DriverCheckpointer.NextSeq | crates/tinyflows-drivers/src/checkpoint.rs:137-155 | reserves the counter's number, starting at zero, and moves nothing but that counter |
| CheckpointStore.DriverCheckpointer.PutCheckpoint | crates/tinyflows-drivers/src/checkpoint.rs:211-231 | appends the record under the reserved number and never overwrites one |
| CheckpointStore.DriverCheckpointer.RemoveThread | crates/tinyflows-drivers/src/checkpoint.rs:402-411 | removes the thread's records and ledgers, keeps its counter and everything else |
| CheckpointStore.DriverCheckpointer.RemoveCheckpoints | crates/tinyflows-drivers/src/checkpoint.rs:413-429 | removes the named records and ledgers of the thread in every namespace and counts the records |
| CheckpointStore.DriverCheckpointer.PutWrites | crates/tinyflows-drivers/src/checkpoint_import.rs:9-63 | refuses exactly a config without a checkpoint id and a non-empty batch for a ledger that does not decode; otherwise changes that one ledger as `LiveBatch` says |
| CheckpointStore.DriverCheckpointer.ImportWrites | crates/tinyflows-drivers/src/checkpoint_import.rs:74-149 | refuses exactly a config without a checkpoint id and a non-empty batch for a ledger that does not decode; otherwise the counters and that one ledger are those of the import |
| CheckpointStore.DriverCheckpointer.StateHistory | crates/tinyflows-drivers/src/checkpoint.rs:269-359 | the bulk answer is the lineage, or an error exactly when the namespace has a record and some record of it, or the writes of some ledger of it, do not decode; it is the hop-by-hop answer if and only if the namespace and the capped lineage are both broken or both sound |
| CheckpointStore.BulkHistory | crates/tinyflows-drivers/src/checkpoint.rs:269-359 | two queries and an in-memory walk give that answer: an error exactly when something the two queries return does not decode, the tuples of the capped lineage otherwise |
| CheckpointStore.IndexById | crates/tinyflows-drivers/src/checkpoint.rs:312-319 | decodes every record, lets the last record win for a re-used id, and ends on the newest record |
| CheckpointStore.WalkInMemory | crates/tinyflows-drivers/src/checkpoint.rs:321-358 | removing ids from the index doubles as the cycle guard; each tuple carries the ledger's writes, or the record's own when the ledger has none |
| CheckpointStore.IndexedWalkIsTrail | crates/tinyflows/src/graph/checkpoint/mod.rs:253-292 | walking the index gives the tuples of the lineage followed by scoped reads with a visited set, from any id, with any cap, and no hop of it is undecodable |
| CheckpointStore.WalkIsTrail | crates/tinyflows/src/graph/checkpoint/mod.rs:177-292 | the hop-by-hop walk, reading record and ledger at each hop, answers with the tuples of its lineage, and fails exactly when a record on it or the ledger of one does not decode |
| CheckpointStore.HistoriesAgree | crates/tinyflows/src/graph/checkpoint/mod.rs:237-252 | the bulk and the hop-by-hop history of every store, thread, namespace and cap agree if and only if both, or neither, meet something that does not decode |
| CheckpointStore.NewestWithId | crates/tinyflows-drivers/src/checkpoint.rs:312-319 | the last record with an id in the listing is the one a scoped read of the id finds |
| CheckpointStore.FirstHop | crates/tinyflows/src/graph/checkpoint/mod.rs:253-292 | the lineage of a namespace is the trail from the newest record's id |
| CheckpointLaws.PutAppends | crates/tinyflows-drivers/src/checkpoint.rs:211-231 | a put appends to its own thread's listing and to no other |
| CheckpointLaws.DeletesKeepOthers | crates/tinyflows-drivers/src/checkpoint.rs:402-429 | deletions leave other threads' records and ledger documents, and other ids' ledger documents, as they were |
| CheckpointLaws.ThreadIsList | crates/tinyflows-drivers/src/checkpoint.rs:163-170 | after every history of puts, deletions and ledger writes a thread's records are exactly a plain append-only list with the deleted ids taken out |
| CheckpointLaws.ReadsAnswerFromTheList | crates/tinyflows-drivers/src/checkpoint.rs:233-376 | `get` and `get_scoped` answer with the last match in that list, and `get_thread` with its checkpoints in order, or an error if one does not decode |
| CheckpointLaws.TrailIsLineage | crates/tinyflows/src/graph/checkpoint/mod.rs:253-292 | whatever the ledgers hold, a lineage starts where the cursor points, goes from each record to its parent, resolves every id to its newest record, repeats no id and respects the cap |
| CheckpointLaws.BulkIsLineage | crates/tinyflows-drivers/src/checkpoint.rs:321-358 | every answer of the bulk read is the tuples of such a lineage from the newest record, with ledgers the hop-by-hop walk cannot decode included |
| CheckpointLaws.WalkIsLineage | crates/tinyflows/src/graph/checkpoint/mod.rs:253-292 | so does every answer of the hop-by-hop walk, from any cursor and visited set |
| CheckpointLaws.TrailEndsOnlyThere | crates/tinyflows/src/graph/checkpoint/mod.rs:253-292 | an uncapped lineage ends at a record without parent, a missing one or one already visited, or, exactly when it is blocked, at one that does not decode |
| CheckpointLaws.BulkEndsOnlyThere | crates/tinyflows-drivers/src/checkpoint.rs:321-358 | an answer of the uncapped bulk read ends only at a record without parent, a missing one, or one already visited |
| CheckpointLaws.WalkEndsOnlyThere | crates/tinyflows/src/graph/checkpoint/mod.rs:253-292 | an answer of the uncapped hop-by-hop walk ends only at a record without parent, a missing one, or one already visited |
| CheckpointLaws.CappedTrailIsPrefix | crates/tinyflows/src/graph/checkpoint/mod.rs:253-292 | a capped lineage is a prefix of the uncapped one, and still blocked only if the cap was not reached |
| CheckpointLaws.BulkCapIsPrefix | crates/tinyflows-drivers/src/checkpoint.rs:321-358 | a capped bulk answer is a prefix of the uncapped one, and the capped read fails exactly when the uncapped one does |
| CheckpointLaws.CappedIsPrefix | crates/tinyflows/src/graph/checkpoint/mod.rs:253-292 | capping a hop-by-hop walk that succeeds gives a prefix of its answer; capping one that fails succeeds exactly when the cap ends before the first record or ledger that does not decode |
| CheckpointLaws.UndecodableOffLineage | crates/tinyflows-drivers/src/checkpoint.rs:269-359 | a store with an undecodable record off the lineage, where the hop-by-hop walk succeeds and the bulk one does not |
| CheckpointLaws.CorruptOffLineage | crates/tinyflows-drivers/src/checkpoint.rs:302-310 | a store whose records all decode, where undecodable writes of a ledger off the lineage fail the bulk read alone |
| CheckpointLaws.WritesOnlyOnLineage | crates/tinyflows-drivers/src/checkpoint.rs:435-453 | a store where a ledger on the lineage, of which only the writes decode, fails the hop-by-hop walk alone |
| SequenceNumbers.NextKeepsUnshared | crates/tinyflows-drivers/src/checkpoint.rs:137-155 | concurrent reserve, insert, lost insert and deletion steps keep every number below its counter and with one writer |
| SequenceNumbers.NumbersNeverReused | crates/tinyflows-drivers/src/checkpoint.rs:137-231 | over every interleaving no number of a thread is used twice and no insert is refused |
| SequenceNumbers.CountersOnlyGrow | crates/tinyflows-drivers/src/checkpoint.rs:402-411 | a counter never goes back, across deletions of its thread |
| ActiveRuns.Registry.Register | crates/tinyflows-module/src/run_manager.rs:98-116 | a free key gets a new reservation, a taken one its holder, and nothing else changes |
| ActiveRuns.Registry.ReserveResume | crates/tinyflows-module/src/run_manager.rs:118-139 | refused exactly when a run that is not parked holds the key; otherwise the parked run is retired and a reservation takes its place |
| ActiveRuns.Registry.Unregister | crates/tinyflows-module/src/run_manager.rs:141-153 | the phase becomes terminal, and only the run that is registered removes its key and wakes its waiters |
| RunRegistration.NextKeeps | crates/tinyflows-module/src/run_manager.rs:166-334 | every step of StartRun, ResumeRun, CancelRun, the sweeps, the actors and the environment keeps the registration invariant |
| RunRegistration.RunsAreConsistent | crates/tinyflows-module/src/run_manager.rs:98-153 | the invariant holds in every state of every run |
| RunRegistration.LiveRunsAreRegistered | crates/tinyflows-module/src/run_manager.rs:98-153 | every reserving, running or parked run is the one ACTIVE maps its key to, unless a canceller set out to unregister it while it was reserving or running |
| RunPoaching.RegisteredExactly | crates/tinyflows-module/src/run_manager/cancellation.rs:19-106 | a live run that no call is about to unregister is the one ACTIVE maps its key to if and only if no canceller set out to unregister it while it was reserving or running |
| RunPoaching.PoachedRunsAreHeld | crates/tinyflows-module/src/run_manager.rs:141-153 | in every state of every run, a poached run is still registered only while some call is between its decision to unregister it and the removal |
| RunRegistration.OneLiveRunPerKey | crates/tinyflows-module/src/run_manager.rs:141-153 | two such runs have different keys, and unregistering any other run leaves it registered |
| RunWakeups.SleeperWillBeWoken | crates/tinyflows-module/src/run_manager.rs:299-312 | with the phase load, the ticket and the second load as three steps: a waiter asleep on a run has been notified, or the run is still registered and its own call still owes the notification |
| RunWakeups.OwnerAdvances | crates/tinyflows-module/src/run_manager.rs:199-242 | that call's next step is always enabled and, whatever storage answers, notifies or brings it strictly closer to notifying |
| RunWakeups.OwnerNotifies | crates/tinyflows-module/src/run_manager.rs:199-242 | over every execution, once the call that made a reservation has taken six steps of its own, whatever storage answered and all others did in between, its waiters have been notified |
| RunWakeups.SleeperIsWoken | crates/tinyflows-module/src/run_manager.rs:299-312 | so after six such steps a waiter asleep on that reservation can go on |
| RunPoaching.PoachedRunIsUnregistered | crates/tinyflows-module/src/run_manager/cancellation.rs:19-106 | a reachable state in which a run is RUNNING and absent from ACTIVE, because CancelRun looked it up between two reads |
| RunRows.NextTallies | crates/tinyflows-module/src/run_manager.rs:199-242 | rows are conserved step by step: found plus inserted, here or by another process, is present plus rolled back plus dropped, and each insert is spent on at most one rollback or start |
| RunRows.StartsAreExclusive | crates/tinyflows-module/src/run_manager.rs:166-247 | over every interleaving, storage failure and insert of other processes, the StartRun calls that spawned an actor for one scoped id number at most one plus one per drop of the row, less one if storage already held the row and one per row another process inserted |
| RunRows.RowsAreNeverReplaced | crates/tinyflows-module/src/run_manager.rs:198-231 | no step puts another row in the place of an existing one, and a settled row stays settled |
| RunRestarts.BoundIsReached | crates/tinyflows-module/src/run_manager.rs:178-197 | for any number of starts and of other processes' rows there is a run with the fewest drops the bound allows, so the bound cannot be lowered and two starts are possible once a row is dropped |
| RunExclusivity.NextOwned | crates/tinyflows-module/src/run_manager.rs:199-242 | every step but a drop of the row, other processes' inserts and updates included, keeps the row under the lease of its one busy actor |
| RunExclusivity.OneActorPerRun | crates/tinyflows-module/src/run_manager/resume.rs:267-305 | while its row is not dropped, a run id never has two actors between spawn and end, through starts, resumes and cancellations, and the busy actor's row is leased to it or settled; where it has two, the row was dropped and one of the two runs was poached |
| RunRestarts.TwoActors | crates/tinyflows-module/src/run_manager/cancellation.rs:19-106 | a reachable state, after one drop, in which a poached run and a second start of its id both have an actor between spawn and end |
| RunEvents.AppendEvent | crates/tinyflows-drivers/src/catalog/run_events.rs:121-172 | the next position is appended, an identical event already stored is acknowledged, anything else is refused; the stream stays numbered from one without gaps |
| RunEvents.MarkTerminal | crates/tinyflows-drivers/src/catalog/run_events.rs:41-76 | succeeds exactly when the row's status is terminal, the stored event is a finishing one that reports the same status, and no other cursor was committed before |
| RunEvents.EventsAfter | crates/tinyflows-drivers/src/catalog/run_events.rs:175-212 | a contiguous page right after the cursor, at most the limit, and on a numbered stream exactly that slice |
| RunEvents.Poll | crates/tinyflows-module/src/run_manager.rs:345-375 | the answer computed from four separate reads; a cursor beyond the stream is an error; `done` only with a terminal row and a cursor past the terminal event and the last event |
| RunEvents.EveryEventOnce | crates/tinyflows-module/src/run_manager.rs:345-375 | a client feeding the cursor back receives every event once and in order, whatever is appended during or between its polls |
| RunEvents.PollsSucceed | crates/tinyflows-module/src/run_manager.rs:345-375 | no poll of such a client is refused |
| RunEvents.DoneIsComplete | crates/tinyflows-module/src/run_manager.rs:345-375 | when `done` is answered, the terminal event and every event stored when the last number was read have been delivered |
| RunEvents.SettledStreamFinishes | crates/tinyflows-module/src/run_manager.rs:345-375 | on a settled stream of N events the poll after n earlier ones is done exactly when 256 * (n + 1) >= N - cursor |
| RunRegistry.InFlightRuns.DrawNumber | crates/tinyflows-catalog/src/run_registry.rs:52-54 | hands out the counter's value and advances it |
| RunRegistry.InFlightRuns.Install | crates/tinyflows-catalog/src/run_registry.rs:55-75 | the entry of the id becomes this registration, whatever it was |
| RunRegistry.InFlightRuns.TryRegister | crates/tinyflows-catalog/src/run_registry.rs:84-114 | refused exactly when the id is in flight, and then nothing changes |
| RunRegistry.InFlightRuns.Cancel | crates/tinyflows-catalog/src/run_registry.rs:120-133 | answers whether the id is in flight and trips exactly the token of its entry |
| RunRegistry.InFlightRuns.DropGuard | crates/tinyflows-catalog/src/run_registry.rs:157-175 | removes the entry only if it is the one this guard installed |
| RunRegistry.InFlightIsLatest | crates/tinyflows-catalog/src/run_registry.rs:52-175 | after any history an id is in flight exactly when its most recent successful registration's guard is undropped, under that registration's number |
| RunRegistry.CancelTripsLatest | crates/tinyflows-catalog/src/run_registry.rs:120-133 | the tripped tokens are exactly those of the registrations that were latest when a cancel found their id in flight |
| RunRegistry.ReservedIdsHaveOneGuard | crates/tinyflows-catalog/src/run_registry.rs:84-114 | while an id only uses `try_register`, at most one undropped guard exists for it |
| LegacyRecords.ResponseStates | crates/tinyflows-module/src/catalog_legacy_batch.rs:261-272 | the tallies list exactly the kinds touched, with exactly what was counted for each |
| LegacyRecords.AddTallies | crates/tinyflows-module/src/catalog_legacy_batch.rs:253-259 | another response's tallies are added kind by kind and its problems appended |
| LegacyRecords.ProblemsAreInvalids | crates/tinyflows-module/src/catalog_legacy_batch.rs:309-322 | with one problem per invalid record of each kind, the problems number the invalid records of all tallies |
| LegacyCheckpoints.SiftRecords | crates/tinyflows-module/src/catalog_legacy_checkpoint.rs:34-121 | refused exactly when some record is not for the checkpointer; otherwise records end up as checkpoints, writes or problems in order |
| LegacyCheckpoints.FillCheckpoints | crates/tinyflows-module/src/catalog_legacy_checkpoint.rs:166-191 | puts each checkpoint whose scoped id is not held, counts the others as existing, and stops at an undecodable record |
| LegacyCheckpoints.GroupByLedger | crates/tinyflows-module/src/catalog_legacy_checkpoint.rs:192-198 | writes grouped by config in order of first appearance |
| LegacyCheckpoints.ImportGroups | crates/tinyflows-module/src/catalog_legacy_checkpoint.rs:199-207 | each group imported into its ledger and counted, up to the first ledger that does not decode |
| LegacyCheckpoints.Replay | crates/tinyflows-module/src/catalog_legacy_checkpoint.rs:160-209 | checkpoints first, then writes, with the store and counts exactly as specified even when a read fails midway |
| LegacyCheckpoints.ApplyCheckpointBatch | crates/tinyflows-module/src/catalog_legacy_checkpoint.rs:26-135 | a foreign record refuses the batch untouched; otherwise the store and the response are those of the replay, a record or ledger that does not decode being an error |
| LegacyCheckpoints.CheckpointBatchConserves | crates/tinyflows-module/src/catalog_legacy_checkpoint.rs:26-135 | when it succeeds every record is written, existing or invalid once, under its kind, with one problem per invalid one |
| LegacyReplay.GroupsPartition | crates/tinyflows-module/src/catalog_legacy_checkpoint.rs:192-198 | each group holds exactly its ledger's writes in their order, no ledger has two groups, none is left out |
| LegacyReplay.CheckpointsAfterBatch | crates/tinyflows-module/src/catalog_legacy_checkpoint.rs:166-207 | afterwards an address that answered keeps its answer, any other answers with the batch's first checkpoint for it, every ledger the batch has writes for decodes and is what importing them makes of it, and every other ledger document is as it was |
| LegacyReplay.ReplayedBatchWritesNothing | crates/tinyflows-module/src/catalog_legacy_checkpoint.rs:160-209 | importing a batch that succeeded again succeeds, writes no record and changes nothing |
| LegacyReplay.WritersKeepMarked | crates/tinyflows-drivers/src/checkpoint_import.rs:26-145 | both writers keep import markers to control identities |
| LegacyBatch.FlowCatalog.ImportIfAbsent | crates/tinyflows-drivers/src/catalog/import.rs:34-49 | stores a document only when its id is free and says whether it did |
| LegacyBatch.ImportRecord | crates/tinyflows-module/src/catalog_legacy_batch.rs:41-243 | one catalog record: placed, already there, or a problem with the right identity and message; revisions and runs only beside their owner flow |
| LegacyBatch.ApplyLegacyBatch | crates/tinyflows-module/src/catalog_legacy_batch.rs:31-273 | the catalog, the store, the counts and every error path of a whole batch |
| LegacyBatch.BatchConserves | crates/tinyflows-module/src/catalog_legacy_batch.rs:31-273 | when a batch succeeds written + existing + invalid is the number of records of each kind, and the problems number the invalid records |
| LegacyBatch.CatalogOnlyGrows | crates/tinyflows-drivers/src/catalog/import.rs:34-49 | a batch never replaces a document, and each it adds is what one of its records asked for |
| LegacyBatch.SecondPassSettles | crates/tinyflows-module/src/catalog_legacy_batch.rs:59-100 | whatever the order of records, a third import of the same batch changes no document |
| LegacyBatch.PlacedExactly | crates/tinyflows-module/src/catalog_legacy_batch.rs:59-100 | after a pass the catalog holds a document exactly when it did before or a record asked for it whose owner flow was in the catalog or earlier in the batch |
| LegacyBatch.SecondPassChangesNothing | crates/tinyflows-module/src/catalog_legacy_batch.rs:59-100 | the second import changes no document if and only if every record whose owner flow is in the catalog or anywhere in the batch finds its document in the catalog, or asked for by a record that follows its owner |
| LegacyBatch.OwnersFirstSettles | crates/tinyflows-module/src/catalog_legacy_batch.rs:72-91 | so the second import changes none when every revision and run follows its owner flow or finds it in the catalog |
| LegacyBatch.LateOwner | crates/tinyflows-module/src/catalog_legacy_batch.rs:72-91 | a two-record batch whose second import does write: a revision read before its flow |
| GraphHash.Canonicalize | crates/tinyflows-catalog/src/graph_hash.rs:63-77 | sorts the keys, then fills the map in that order, recursively: the canonical form |
| GraphHash.CanonicalIffSame | crates/tinyflows-catalog/src/graph_hash.rs:63-77 | two values have the same canonical form exactly when they differ only in object key order, at every depth, array order kept |
| GraphHash.CanonicalIsFixed | crates/tinyflows-catalog/src/graph_hash.rs:63-77 | canonicalizing again changes nothing |
| GraphHash.CanonicalIsInOrder | crates/tinyflows-catalog/src/graph_hash.rs:63-77 | in the canonical form every object's keys are in order, at every depth |
| GraphHash.CanonicalIsSame | crates/tinyflows-catalog/src/graph_hash.rs:63-77 | canonicalizing changes nothing but key order |
| GraphHash.PinsAgree | crates/tinyflows-catalog/src/graph_hash.rs:27-42 | the values digested for two pins agree exactly when the graphs differ only in key order and the approval flags agree |
| GraphPolicy.ClearedIsHarmless | crates/tinyflows-catalog/src/graph_policy.rs:87-116 | a graph cleared at any bound has no acting node, tool-granted agent, saved reference or unparseable child at any nesting level |
| GraphPolicy.ClearedExactly | crates/tinyflows-catalog/src/graph_policy.rs:87-116 | the bounded answer is true exactly when something at some level can act or the nesting exceeds the bound |
| GraphPolicy.RaisingTheBound | crates/tinyflows-catalog/src/graph_policy.rs:87-116 | raising the bound never turns false into true |
| GraphPolicy.WaivedOnlyWhenHarmless | crates/tinyflows-catalog/src/graph_policy.rs:154-162 | approval is waived exactly when the caller waives it and the whole graph is harmless and nested at most 8 deep; it is forced exactly when required against the caller |
| GraphPolicy.SoleTriggerIsSole | crates/tinyflows-catalog/src/graph_policy.rs:178-185 | a trigger is found exactly when one node and no other is a trigger |
| GraphPolicy.Walk | crates/tinyflows-catalog/src/graph_policy.rs:187-198 | the worklist visits exactly what an edge path reaches, and ends on cyclic and dangling graphs |
| GraphPolicy.HasActionableNodes | crates/tinyflows-catalog/src/graph_policy.rs:178-204 | with a sole trigger true exactly when a path leads from it to an id whose node is not a trigger; without one, when any such node and any edge exist |
| Promotion.BeatsIsStrictTotal | crates/tinyflows-adaptive/src/promotion.rs:93-100 | the comparison by band, rate, trials and lineage is a strict total order on positions |
| Promotion.ChampionIsLeast | crates/tinyflows-adaptive/src/promotion.rs:89-102 | the champion is the one member that beats every other |
| Promotion.ChampionPreference | crates/tinyflows-adaptive/src/promotion.rs:74-102 | a member proven to help is preferred to any unproven one, an unproven one to any proven useless, and a family of equals keeps its root |
| Promotion.SuccessKeepsChampion | crates/tinyflows-adaptive/src/promotion.rs:74-102 | recording a success for the champion never dethrones it, across band changes |
| Promotion.OneReigns | crates/tinyflows-adaptive/src/promotion.rs:106-118 | with unique ids at most one member stands as champion, and one does exactly when the family is not empty and some member is proven and has helped or all are proven useless |
| Recall.RanksByUse | crates/tinyflows-adaptive/src/recall.rs:53-81 | useful lessons rank above untried ones, those above useless ones, and a higher help rate ranks higher |
| Recall.Retrieve | crates/tinyflows-adaptive/src/recall.rs:71-86 | filter, sort, set constraints apart, cut the rest at k |
| Recall.OrderDoesNotMatter | crates/tinyflows-adaptive/src/recall.rs:71-86 | with unique ids the answer is the same for every permutation of the lessons |
| Recall.KeepsConstraints | crates/tinyflows-adaptive/src/recall.rs:71-86 | every constraint of the requested kind is kept, nothing unrequested comes back, and nothing is dropped when the rest fits |
| Recall.OmittedRankBelow | crates/tinyflows-adaptive/src/recall.rs:53-86 | every other lesson left out ranks below every other lesson kept |
| Digest.DigestHex | crates/tinyflows-adaptive/src/reuse.rs:172-179 | the loop computes the FNV-1a fold with 64-bit wrap-around, rendered as 16 hexadecimal digits |
| Digest.StepInjective | crates/tinyflows-adaptive/src/reuse.rs:174-177 | a step is injective in the state for a fixed byte and in the byte for a fixed state |
| Digest.HexRoundTrip | crates/tinyflows-adaptive/src/reuse.rs:178 | the 16-digit rendering, read back as a hexadecimal number, is the hash, so it is injective |
| Digest.PublishedVectors | crates/tinyflows-adaptive/src/reuse.rs:173-176 | the fold gives the published FNV-1a hashes of the empty string and of the letter a |
| Digest.OneByteApart | crates/tinyflows-adaptive/src/reuse.rs:172-179 | two byte strings that differ in exactly one byte have different digests |
| Reuse.QuotedLiterals | crates/tinyflows-adaptive/src/reuse.rs:142-170 | the scanner's loop is the recursive scan, a trailing backslash and an unclosed literal included |
| Reuse.ScanInvertsRender | crates/tinyflows-adaptive/src/reuse.rs:142-170 | scanning quote-free filler and quoted strings, escaped in any way, returns exactly what the strings mean, in order |
| Reuse.EscapedStringIsFound | crates/tinyflows-adaptive/src/reuse.rs:140-170 | any string, escaped and quoted between filler, is found again as it was |
| Reuse.CollectStrings | crates/tinyflows-adaptive/src/reuse.rs:182-189 | appends the string leaves in order |
| Reuse.LeavesAreLeaves | crates/tinyflows-adaptive/src/reuse.rs:182-189 | those leaves are exactly the strings that stand as values at some depth, keys excluded |
| Reuse.TrimDrops | crates/tinyflows-adaptive/src/reuse.rs:71-76 | trimming drops white space at both ends and nothing else |
| Reuse.SpecificsAreInputs | crates/tinyflows-adaptive/src/reuse.rs:71-76 | the values searched for are exactly the trimmed string inputs that are distinctive |
| Reuse.CheckLeaf | crates/tinyflows-adaptive/src/reuse.rs:85-102 | one leaf adds exactly the values it pasted, each once, behind those found before |
| Reuse.BakedIn | crates/tinyflows-adaptive/src/reuse.rs:70-105 | exactly the distinctive inputs that stand in a plain leaf or in a quoted literal of an expression leaf, each once, in the order of first finding: configuration by configuration, leaf by leaf, value by value |

## Left out

- The text of storage keys, percent-escaping and `subgraph_key`: addresses are records of their parts, so keys are injective by construction.
- Rendering JSON to text, SHA-256, timestamps, tracing, prompts and error wording beyond the problem messages of an import batch.
- Rounding of help rates: rates are exact quotients, so two different quotients that round to the same 64-bit float are ordered here and tie in the code.
- 64-bit overflow of counters, sequence numbers and event numbers: they are unbounded, so the refusal of an event after number 2^64 - 1 is not modelled.
- Backend failures of the checkpoint store and of an import batch other than a record or ledger that does not decode: in the code they abort the call and leave what was already stored.
- `update` giving up after too many conflicts, other than by returning an error; the fields of a stored document that repeat its address (thread, subgraph, checkpoint id) agree with its key.
- Event payload decoding and the owner-binding check before a poll; a row deleted between the reads of one poll.
- What an actor does inside a run, its panics, dropped request futures, the boot sweep and dedup settlement: an actor drives a row to a terminal status, parks it or gives up.
- Which decoded fields make up a catalog document, graph migration and the flow incarnation stored with revisions and runs: a document is what its record decodes to.
- `trigger_is_automatic`, listing and metadata reads, `build_registry`, the driver, the bus adapters and the copilot tools: simpler siblings of what is modelled.
- Node configurations in `GraphPolicy` are what the policy reads of them (grants, references, the inline child), already looked up.
- LedgerUpdates.RunIsLinearised: says what holds in every state, not that every writer finishes, because a writer may lose the swap to others without end.
- RunWakeups.OwnerNotifies: counts the steps the owing call takes, and does not say that the scheduler lets it take them.
- What other processes on the same storage do is to insert, update, settle and drop rows; their own maps of active runs are not modelled.
- Promotion.SuccessKeepsChampion: takes no member to have helped more often than it was applied, as the counts are kept; a rate above one would fall with a success.
