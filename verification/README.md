# Models of the batch command scheduler and the data service

This project models two parts of the !CHAOS control framework in Dafny and proves what they keep over
whole runs. `dafny verify dfyconfig.toml` checks everything.

**Batch commands.** A sandbox holds a priority queue of submissions, a stack of paused commands, one
current command and two functors. `CommandTypes` has the decision table, `Sandbox` the four atomic
steps (enqueue, one checker iteration, one scheduler step, kill), `CommandLife` the automaton that the
events and handler calls of one command must follow. `SandboxInvariant`, `SandboxRuns` and
`SandboxOrder` prove the invariant and, from it, legality of every command's story, conservation,
functor safety and the bracketing of pauses; `SandboxEffects` says what each step does to the whole
state. `BatchCommandSandbox` is the sandbox as a class whose
methods are proved equal to the steps. `CommandStates` and the class in `BatchCommandExecutor` (deque
and map sharing mutable records) are the executor's history with its capping and flushing loops;
`ExecutorSystem` runs one executor with any number of sandboxes, notifications arriving late and in any
interleaving, and `SystemEffects` says what each of its steps does and whose numbers are where.

**Data service.** `StageBlocks`, `StageArea`, `StageRuns`, `StageTheorems`, `StageEffects`,
`StageProgress` and the classes in `StageFiles` are the stage area: writers that look at their block only every sixteenth time, indexers
that claim blocks by compare and set, and the scan of length-prefixed BSON documents (`document`
production of BSON version 1.1). `DataFiles`, `DataFileTheorems`, `DataFileEffects` and the class in
`StageDataVFileScanner` copy packs to data blocks with index entries. `PackIndex`, `IndexCursor`,
`QueryEngine`, `QueryPhases`, `QueryAnswer`, `QueryTheorems`, `QueryFailure`, `QueryMemory` and the class in
`DataCloudQuery` are the paged cursor and the stepped query engine. `BlockCache`, `CacheEffects`, `DataBlockCache`
and `CachedReads` are the reference-counted block cache and its reads while indexers go on writing.
`Ingest` and `PlantProgress` join stage and data area; `Pipeline` and `QueryProgress` join the data area, the cache and the
query engine.
`ConnectionRotation` is the pool of database servers.

**Conventions.** Commands, fetchers and packs are identified by numbers or addresses, deletion removes
them from a heap map, and a history (log, counters of created and freed packs, bytes of origin) is kept
beside the program's own state. The time at which a block was opened is read off the steps of a run.
The modules named after effects and phases describe every step by the resulting state, in clock
readings, sizes, handlers and answers, without the functions that compute it. Handlers are arbitrary changes of the running property or exceptions.
What fails, the clock, generated block names, health of servers and answers of the channel are inputs
of the steps, quantified over in the theorems. Storage maps paths to bytes, the index maps (device,
type, time stamp) to entries because of the unique index at
ChaosDataService/db_system/MongoDBDriver.cpp:76-79, and the change of a block's state is atomic as
ChaosDataService/db_system/DBDriver.h:118-133 promises.

**Where the code does not do what it is for.** The model follows the code, and the exact condition is
proved in each case.

- A submission that reaches an idle sandbox and cannot be installed disappears without event and without
  being deleted (`SandboxOrder.DroppedExactlyWhenIdle`, `SandboxOrder.SetOnlyCommandVanishes`); the
  executor remembers it as QUEUED for ever.
- `killCurrentCommand` only sets the running property to end, so the command reports COMPLETED, not
  KILLED; KILLED is only told to a command replaced by a killing submission
  (`SandboxOrder.HowCurrentLeaves`).
- `processDataPack` takes the location before the write looks at the block, so the entry is wrong exactly
  when the block is no longer valid at that moment (`DataFileTheorems.NewEntryDenotesExactlyWhen`); such an
  entry can never be read, and cuts off every query that asks for it (`Pipeline.QuerySendsStoredPacks`).
- After a failed scan the data files are deleted through the non-virtual destructor of `VFSFile`, which
  closes their blocks without making the entries querable. These packs can never be queried, and the
  rescan does not help because their keys are already indexed (`DataFileTheorems.StrandedForEver`,
  `DataFileTheorems.FailedScanStrandsEntry`).
- A read limit below the size of the last page loses packs (`QueryTheorems.AnswerCompleteExactlyWhen`);
  the engine's limit of 100 does not.
- A query without hits ends in error -1 instead of an empty answer (`QueryTheorems.EmptyQueryFails`).
- A query that cannot be rescheduled is deleted without its waiting packs
  (`QueryMemory.PacksAccountedFor`, `QueryMemory.FailedReschedulingLosesPacks`).
- A stage block that ends in four stray bytes is removed as if it had been read completely
  (`StageBlocks.ScanOfAnyBlock`).
- With max_block_size 0 a stage block can reach exactly sixteen times the longest record
  (`StageTheorems.SixteenRecordsReached`), so the strict bound in `StageTheorems.StageBlocksBounded` is for
  positive sizes; the bound for size 0 is in its first clause.
- A short read spoils the stream of a cached fetcher for all later reads; in runs of the service this cannot
  happen, because entries lie within a closed block or start at its end (`CachedReads.CachedReadsExact`).

## Model

| member | source | states |
|---|---|---|
| `ExecutorSystem.LiveCommandsTracked` | chaos/common/batch_command/BatchCommandExecutor.cpp:264-366 | in every reachable state of executor and any number of sandboxes, under every interleaving of notifications, capping and flushing, a queued, current or paused command is remembered with QUEUED, RUNNING or PAUSED according to where it is, and ids in the history are unique |
| `ExecutorSystem.ToldCommandsTracked` | chaos/common/batch_command/BatchCommandExecutor.cpp:264-300 | while notifications are still on their way, the history agrees with the part of the sandbox's log that was delivered, and that part is a legal story |
| `ExecutorSystem.SystemRunKeeps` | chaos/common/batch_command/BatchCommandExecutor.cpp:264-366 | the system invariant (boxes sound, ids separate, everything told and not over is remembered) holds after any number of steps |
| `ExecutorSystem.SystemStepKeeps` | chaos/common/batch_command/BatchCommandExecutor.cpp:615-636 | each submission, sandbox step, delivery, cap and flush keeps the system invariant |
| `ExecutorSystem.SubmissionNeverStuck` | chaos/common/batch_command/BatchCommandExecutor.cpp:471-515 | submitting is possible in every reachable state: the number to be handed out is new in every sandbox |
| `SystemEffects.SubmissionEnqueues` | chaos/common/batch_command/BatchCommandExecutor.cpp:471-507 | in every run, a submission with an instance to an existing channel puts the command under the next number, which no sandbox has had, into that sandbox's queue, logs its QUEUED and changes nothing else; without an instance only the number is used up, without the channel nothing happens |
| `SystemEffects.SystemConservation` | chaos/common/batch_command/BatchCommandExecutor.cpp:471-507 | at any time a sandbox owns exactly the numbers of the successful submissions to it, each in exactly one of its five places |
| `SystemEffects.NumberedOnce` | chaos/common/batch_command/BatchCommandExecutor.cpp:493-494 | no two submissions get the same number |
| `SystemEffects.WorkStaysInItsBox` | chaos/common/batch_command/BatchCommandSandbox.cpp:288-718 | a thread of a sandbox takes a step of that sandbox from a sound state and touches no other sandbox, no notification and no history |
| `SystemEffects.DeliveryNotes` | chaos/common/batch_command/BatchCommandExecutor.cpp:264-322 | a delivery hands over exactly the next notification: QUEUED is appended, any other event replaces the last event of its command, which is remembered, and a handler call is ignored |
| `SystemEffects.CappingShortens` | chaos/common/batch_command/BatchCommandExecutor.cpp:324-366 | capping leaves exactly max entries, or only live ones when there are more of these, all of them as they were |
| `SystemEffects.FlushingShortens` | chaos/common/batch_command/BatchCommandExecutor.cpp:615-636 | flushing cuts off the terminated entries at the back and nothing else of the system |
| `SystemEffects.ThreadsNeverStuck` | chaos/common/batch_command/BatchCommandSandbox.cpp:288-638 | in every reachable state each sandbox can be checked with any outcome of a set handler, run and killed, and a notification can be delivered exactly when there is one |
| `SystemEffects.CatchUp` | chaos/common/batch_command/BatchCommandExecutor.cpp:264-300 | from every reachable state the executor can be told everything a sandbox has logged, which is where the tracking of live commands applies |
| `SandboxRuns.EveryStoryIsLegal` | chaos/common/batch_command/BatchCommandSandbox.cpp:322-515 | over every run the events of one command form QUEUED, then RUNNING+ (PAUSED RUNNING+)* or straight to the end, at most one terminal event, never after PAUSED, and the last event tells exactly where the command is; handler calls are legal at their point |
| `CommandLife.WordIsLegal` | chaos/common/batch_command/BatchCommandSandbox.cpp:640-692 | a log that never leaves the life automaton is a legal word of events and handler calls for each id |
| `SandboxRuns.EndIsFinal` | chaos/common/batch_command/BatchCommandSandbox.cpp:396-515 | over every run a terminal event is the last one told about a command and never follows PAUSED |
| `SandboxRuns.SetHandlerEnteredOnce` | chaos/common/batch_command/BatchCommandSandbox.cpp:640-692 | over every run the set handler of a command is entered at most once |
| `SandboxRuns.Conservation` | chaos/common/batch_command/BatchCommandSandbox.cpp:306-526 | after any prefix of a run a submitted id is in exactly one of queue, pause stack, current slot, disposed, dropped, and any other id in none |
| `SandboxRuns.RunKeepsInv` | chaos/common/batch_command/BatchCommandSandbox.cpp:288-526 | the sandbox invariant holds in every reachable state |
| `SandboxRuns.NeverStuck` | chaos/common/batch_command/BatchCommandSandbox.cpp:288-526 | no pointer dangles in a reachable state, so every step whose inputs exist extends the run |
| `SandboxInvariant.StepKeepsInv` | chaos/common/batch_command/BatchCommandSandbox.cpp:288-737 | enqueue, checker iteration, run step and kill each keep the invariant |
| `SandboxInvariant.ReinstallSucceeds` | chaos/common/batch_command/BatchCommandSandbox.cpp:640-692 | installing a current or paused command again never fails and never enters its set handler, so a resume leaves a current command |
| `SandboxInvariant.InstallFailureKeeps` | chaos/common/batch_command/BatchCommandSandbox.cpp:361-384 | a submission that cannot be installed over a current command only loses itself: everything else stays as it was |
| `SandboxInvariant.ReplaceFailureKeeps` | chaos/common/batch_command/BatchCommandSandbox.cpp:386-416 | when the replacing submission fails, the command about to be replaced is current again with its functors, and only sees RUNNING once more |
| `SandboxInvariant.RemoveReinstall` | chaos/common/batch_command/BatchCommandSandbox.cpp:694-709 | taking a current command off its functors and installing it again gives back the same state but for one RUNNING event |
| `SandboxOrder.FunctorsNeverDangle` | chaos/common/batch_command/BatchCommandSandbox.cpp:45-68 | in every reachable state a functor is empty or refers to the current or a paused command, never to a deleted one, and serves the current command where it implements the handler; no current command implies an empty pause stack |
| `SandboxOrder.WellBracketed` | chaos/common/batch_command/BatchCommandSandbox.cpp:361-419 | a paused command comes back only when every command that ever ran above it is deleted, and then the stack below it is as it was |
| `SandboxOrder.ResumesInReverseOrder` | chaos/common/batch_command/BatchCommandSandbox.cpp:467-494 | before a paused command comes back, each one paused above it has been current again and deleted |
| `SandboxOrder.DeletedOnlyAfterResuming` | chaos/common/batch_command/BatchCommandSandbox.cpp:467-494 | a paused command is deleted only after having been current again |
| `SandboxOrder.TakesOverExactlyWhen` | chaos/common/batch_command/BatchCommandSandbox.cpp:126-134 | the first submission becomes current if and only if it can be installed and the sandbox is idle, the current command is over, or is normal and the submission stacks or kills; it stays queued if and only if it has to wait |
| `SandboxOrder.GivesWayExactlyWhenOver` | chaos/common/batch_command/BatchCommandSandbox.cpp:459-515 | with nothing queued the current command gives way if and only if it has ended or faulted, to the top of the pause stack or to nobody |
| `SandboxOrder.HowCurrentLeaves` | chaos/common/batch_command/BatchCommandSandbox.cpp:341-449 | every way a current command stops being current, with the event it is told and the properties that must hold for it |
| `SandboxOrder.ExclusiveStays` | chaos/common/batch_command/BatchCommandSandbox.cpp:126-127 | an exclusive command is never displaced by a submission |
| `SandboxOrder.DroppedExactlyWhenIdle` | chaos/common/batch_command/BatchCommandSandbox.cpp:450-457 | a command is dropped without event and disposal if and only if it reaches an idle sandbox and cannot be installed |
| `SandboxOrder.SetOnlyCommandVanishes` | chaos/common/batch_command/BatchCommandSandbox.cpp:450-457 | a concrete run: a command with only a set handler, submitted to an idle sandbox, is dropped with QUEUED as its only event |
| `SandboxEffects.RunOutcome` | chaos/common/batch_command/BatchCommandSandbox.cpp:535-571 | one scheduler step, for all commands: the log gains the acquire call, then the correlation call, each exactly when its target has neither ended nor faulted at that time and with the property it has then; every command's property afterwards; nothing else changes |
| `SandboxEffects.RunOfCurrent` | chaos/common/batch_command/BatchCommandSandbox.cpp:543-571 | for the current command by its handlers: both calls in order when the first leaves it alive, the property the last call left unless the post step overrides it, no call on a command that is over |
| `SandboxEffects.NoCallOnFinished` | chaos/common/batch_command/BatchCommandSandbox.cpp:543-549 | a step adds no occurrence for a command that has ended or faulted |
| `SandboxEffects.EnqueueOutcome` | chaos/common/batch_command/BatchCommandSandbox.cpp:720-737 | a submission adds a new id to queue and heap and logs QUEUED |
| `SandboxEffects.KillOutcome` | chaos/common/batch_command/BatchCommandSandbox.cpp:712-718 | a kill sets the property of the current command to end and changes nothing else |
| `SandboxEffects.KilledLeaves` | chaos/common/batch_command/BatchCommandSandbox.cpp:712-718 | a killed command is deleted with COMPLETED at the next check, unless the submission that is to replace it cannot be installed |
| `SandboxEffects.HighestPriorityFirst` | chaos/common/batch_command/BatchCommandSandbox.cpp:308-320 | a check looks at a submission of highest priority and leaves every other one in the queue as it is |
| `SandboxEffects.IdleOutcome` | chaos/common/batch_command/BatchCommandSandbox.cpp:450-457 | whole state after a check of an idle sandbox: set handler called when needed, then current with its functors and RUNNING, or dropped without event |
| `SandboxEffects.SetOnlyOutcome` | chaos/common/batch_command/BatchCommandSandbox.cpp:322-339 | whole state after a submission with only a set handler meets a current command: called, told COMPLETED or FAULT, deleted |
| `SandboxEffects.WaitOutcome` | chaos/common/batch_command/BatchCommandSandbox.cpp:341-359 | an exclusive command, or a normal one against a normal submission, changes nothing |
| `SandboxEffects.StackOutcome` | chaos/common/batch_command/BatchCommandSandbox.cpp:361-384 | whole state after a stacking submission meets a normal command: RUNNING for it and PAUSED for the one on the stack, or FAULT and deletion when its set handler throws |
| `SandboxEffects.ReplaceOutcome` | chaos/common/batch_command/BatchCommandSandbox.cpp:386-449 | whole state after a replacement: RUNNING, then KILLED, COMPLETED or FAULT for the one replaced, which is deleted and off the functors; or the submission is deleted with FAULT and the current one sees RUNNING again |
| `SandboxEffects.ResumeOutcome` | chaos/common/batch_command/BatchCommandSandbox.cpp:467-494 | whole state after a finished command gives way to the top of the stack: RUNNING for that one, farewell and deletion for the finished one |
| `SandboxEffects.FinishOutcome` | chaos/common/batch_command/BatchCommandSandbox.cpp:495-515 | whole state after a finished command leaves an empty stack: farewell, deletion, no functor |
| `BatchCommandSandbox.Sandbox.CheckNextCommand` | chaos/common/batch_command/BatchCommandSandbox.cpp:306-526 | one checker iteration in place, equal to the specified step |
| `BatchCommandSandbox.Sandbox.CheckAgainstCurrent` | chaos/common/batch_command/BatchCommandSandbox.cpp:341-449 | the decision table branches against a current command |
| `BatchCommandSandbox.Sandbox.ReplaceCurrent` | chaos/common/batch_command/BatchCommandSandbox.cpp:387-449 | kill, ended and faulted branches: install, event and deletion, or reinstallation |
| `BatchCommandSandbox.Sandbox.CheckEnded` | chaos/common/batch_command/BatchCommandSandbox.cpp:459-520 | resume from the pause stack or finish |
| `BatchCommandSandbox.Sandbox.InstallHandler` | chaos/common/batch_command/BatchCommandSandbox.cpp:640-692 | set handler when needed, functors, current slot and RUNNING event, or failure |
| `BatchCommandSandbox.Sandbox.RemoveHandler` | chaos/common/batch_command/BatchCommandSandbox.cpp:694-709 | clears exactly the functors that refer to the command |
| `BatchCommandSandbox.Sandbox.RunCommand` | chaos/common/batch_command/BatchCommandSandbox.cpp:535-638 | one scheduler step: acquire, then correlation functor, each only on a command that is not over |
| `BatchCommandSandbox.Sandbox.EnqueueCommand` | chaos/common/batch_command/BatchCommandSandbox.cpp:720-737 | adds the command and fires QUEUED |
| `BatchCommandSandbox.Sandbox.KillCurrentCommand` | chaos/common/batch_command/BatchCommandSandbox.cpp:712-718 | sets the running property of the current command to end |
| `CommandStates.CapOutcome` | chaos/common/batch_command/BatchCommandExecutor.cpp:324-366 | capping n > max entries with T terminated ones leaves max(max, n - T), having removed exactly the first min(T, n - max) terminated ones; the live part of the popped prefix comes back reversed before the untouched rest |
| `CommandStates.CapKeepsLive` | chaos/common/batch_command/BatchCommandExecutor.cpp:324-366 | capping keeps ids unique, invents nothing and keeps every live entry |
| `CommandStates.LiveInOrder` | chaos/common/batch_command/BatchCommandExecutor.cpp:335-354 | the live part of a history keeps its order: it is a homomorphism on concatenation |
| `CommandStates.FlushOutcome` | chaos/common/batch_command/BatchCommandExecutor.cpp:615-636 | flushing removes the longest terminated suffix and nothing else |
| `CommandStates.FlushKeepsLive` | chaos/common/batch_command/BatchCommandExecutor.cpp:615-636 | flushing keeps ids unique and every live entry |
| `CommandStates.HandleKeeps` | chaos/common/batch_command/BatchCommandExecutor.cpp:264-322 | an event changes the last event of its own id only; QUEUED adds the id |
| `BatchCommandExecutor.Executor.HandleCommandEvent` | chaos/common/batch_command/BatchCommandExecutor.cpp:264-300 | the shared record is updated in place; deque and map stay views of the same records unless QUEUED comes for an id still remembered |
| `BatchCommandExecutor.Executor.AddCommandState` | chaos/common/batch_command/BatchCommandExecutor.cpp:311-322 | a new record at the back of the deque, and in the map if the id is new; the two views agree afterwards if and only if it is |
| `BatchCommandExecutor.Executor.CapCommandQueue` | chaos/common/batch_command/BatchCommandExecutor.cpp:324-366 | deque becomes the capped one and the map domain equals the deque ids |
| `BatchCommandExecutor.Executor.PopTerminated` | chaos/common/batch_command/BatchCommandExecutor.cpp:335-354 | the popping loop with its counter: live records put aside in order, terminated ones out of the map |
| `BatchCommandExecutor.Executor.Reinsert` | chaos/common/batch_command/BatchCommandExecutor.cpp:356-361 | live records go back in front one by one, in reverse |
| `BatchCommandExecutor.Executor.FlushCommandStates` | chaos/common/batch_command/BatchCommandExecutor.cpp:615-636 | deque becomes the flushed one, map domain equals its ids |
| `BatchCommandExecutor.Executor.GetCommandState` | chaos/common/batch_command/BatchCommandExecutor.cpp:378-385 | finds the record of an id exactly when the history has one |
| `Pipeline.QuerySendsStoredPacks` | ChaosDataService/vfs/VFSQuery.cpp:53-131 | a query stepped in any run of indexers, failed scans, other queries and cleans, each of its reads being an event of that run and failing when the cache's answer does: once over, it has ended regularly if and only if no entry it asks for is misplaced, having sent exactly the entries asked for, each once; otherwise it has ended in error -2, having sent exactly the whole pages before the one with the first misplaced hit, the packs of that page read by then freed; every pack sent was read with the bytes it was stored with |
| `Pipeline.ReadsTheRow` | ChaosDataService/vfs/VFSQuery.cpp:69-83 | an entry read later is still at the path, offset and size of the row the cursor returned |
| `Pipeline.PacksAreRead` | ChaosDataService/vfs/VFSQuery.cpp:115-127 | over every session each pack waiting or sent comes from the read of its serial number, which gave the bytes stored for its row |
| `QueryProgress.QueryCanBeAnswered` | ChaosDataService/query_engine/QueryEngine.cpp:366-426 | wherever a run of the service stands, a live query with hits can be stepped to its end from there: the run goes on with the reads the query makes, and no reachable state stands in their way |
| `QueryFailure.QueryFails` | ChaosDataService/vfs/VFSQuery.cpp:115-127 | for any rows and any set of unreadable ones among the hits: error -2 after a fixed number of steps, whole pages before the first unreadable hit sent, the packs read from its page freed |
| `QueryFailure.FailingFetch` | ChaosDataService/query_engine/QueryEngine.cpp:386-404 | a fetch step whose k-th read fails creates k packs, sends nothing and frees exactly these k |
| `QueryTheorems.DefaultQueryAnswered` | ChaosDataService/query_engine/QueryEngine.cpp:291-426 | a query over a store that does not change sends exactly the querable entries in its interval, once each, pages of 100 each reversed, numbered 1 to N, and ends after 2 + ceil(N/100) + ceil(N/50) steps |
| `QueryTheorems.QueryAnswered` | ChaosDataService/query_engine/QueryEngine.cpp:366-426 | the same for any page dimension, read limit and forwarding page, as long as all hits can be read: steps, numbering, chunks sent and exactly the announced number of page queries |
| `QueryTheorems.AnswerCompleteExactlyWhen` | ChaosDataService/vfs/VFSQuery.cpp:103-131 | all hits are sent if and only if the last page fits into one read |
| `QueryTheorems.ShortLimitLosesPacks` | ChaosDataService/vfs/VFSQuery.cpp:107-127 | a concrete read limit below the page dimension that loses packs |
| `QueryTheorems.EmptyQueryFails` | ChaosDataService/db_system/MongoDBIndexCursor.cpp:46-76 | a query without hits ends in error -1 without sending anything |
| `QueryTheorems.HitsFacts` | ChaosDataService/db_system/MongoDBIndexCursor.cpp:46-62 | the interval with missing bounds filled in holds exactly the rows wanted, ascending |
| `QueryAnswer.AnswerFrom` | ChaosDataService/query_engine/QueryEngine.cpp:386-421 | from any fetch position on, the steps to the end and the rows sent are the ones computed from the hits alone |
| `QueryAnswer.ForwardAll` | ChaosDataService/query_engine/QueryEngine.cpp:291-330 | forwarding k packs takes ceil(k / page) steps and sends them from the back of the vector, numbered on without gap |
| `QueryAnswer.SendLoopCalm` | ChaosDataService/query_engine/QueryEngine.cpp:299-327 | one forwarding step sends the last packs of the vector in reverse with consecutive numbers |
| `QueryPhases.SearchOutcome` | ChaosDataService/query_engine/QueryEngine.cpp:373-385 | a search ends the query with -1 exactly when it fails or the interval with its bounds filled in has no pages; otherwise the cursor holds that interval, its count and its pages |
| `QueryPhases.FetchOutcome` | ChaosDataService/query_engine/QueryEngine.cpp:387-404 | a fetch ends the query with -2 exactly when its page cannot be had or one of its rows cannot be read, and regularly exactly when there is nothing to hand out and all is fetched; otherwise all its rows, in order, are packs to forward and the cursor stands behind them |
| `QueryPhases.ForwardOutcome` | ChaosDataService/query_engine/QueryEngine.cpp:406-421 | a forward step ends the query with -3 exactly when there is no channel or one of the sends it tries is not accepted; it hands over the packs from the back with consecutive numbers, up to a page or the first refusal, and goes back to fetching when none is left |
| `QueryPhases.StepOutcome` | ChaosDataService/query_engine/QueryEngine.cpp:428-485 | after its phase a query that is over is let go with its unsent packs freed from the back, one that cannot be rescheduled is let go as it is |
| `QueryPhases.RefusalEndsQuery` | ChaosDataService/query_engine/QueryEngine.cpp:406-410 | in every run a refused send or a missing channel is the last step and ends in error -3 |
| `QueryPhases.EndedMeansAllSent` | ChaosDataService/query_engine/QueryEngine.cpp:392-394 | in every run a query that ended regularly has handed over every pack it ever fetched, exactly once, and freed none |
| `QueryEngine.PageRead` | ChaosDataService/vfs/VFSQuery.cpp:103-131 | a read takes the next rows in order up to the limit or the first failure and makes one pack of each |
| `QueryMemory.PacksAccountedFor` | ChaosDataService/query_engine/QueryEngine.cpp:452-480 | when the engine lets go of a query, every pack was deleted once and its buffer handed over or freed once, if and only if its last step was not one whose rescheduling failed after a fetch that read a pack without error or disconnection, or after a forward step with all sends accepted and more than a page waiting |
| `QueryMemory.FailedReschedulingLosesPacks` | ChaosDataService/query_engine/QueryEngine.cpp:476-484 | a concrete run of two steps after which a pack is never deleted |
| `QueryMemory.RunKeeps` | ChaosDataService/query_engine/QueryEngine.cpp:301-327 | in every state of every run, with failures and disconnections anywhere, waiting and deleted packs together are the packs created, and each deleted pack's buffer is handed over or freed |
| `IndexCursor.NextPageFollows` | ChaosDataService/db_system/MongoDBIndexCursor.cpp:79-114 | the next page is exactly the next min(dimension, left) hits although the search has no upper time bound |
| `IndexCursor.PageOfAnyStore` | ChaosDataService/db_system/MongoDBIndexCursor.cpp:79-114 | the next page of any store, changed or not: the rows after the last time stamp, as many as are left modulo 2^32 but at most a page, all of them when nothing is left, none once the end is reached; and all other fields |
| `IndexCursor.TimeStampsStrictlyIncrease` | ChaosDataService/db_system/MongoDBIndexCursor.cpp:79-114 | time stamps strictly increase over all pages even if the index changes between them |
| `IndexCursor.PageQueriesMade` | ChaosDataService/db_system/MongoDBIndexCursor.cpp:61-76 | when all is fetched, the page queries made are ceil(found / dimension) |
| `IndexCursor.MongoDBIndexCursor.ComputeTimeLapsForPage` | ChaosDataService/db_system/MongoDBIndexCursor.cpp:46-76 | bounds filled in, count and page number, error when there are no pages |
| `IndexCursor.MongoDBIndexCursor.PerformNextPagedQuery` | ChaosDataService/db_system/MongoDBIndexCursor.cpp:79-114 | the cursor's fields after the next page query |
| `IndexCursor.MongoDBIndexCursor.GetIndex` | ChaosDataService/db_system/MongoDBIndexCursor.cpp:122-134 | the next row of the page, position advanced |
| `PackIndex.RowsFacts` | ChaosDataService/db_system/MongoDBDriver.cpp:849-911 | the rows of a device are exactly its querable entries, ascending by time stamp |
| `PackIndex.BetweenFacts` | ChaosDataService/db_system/MongoDBDriver.cpp:849-879 | the bounded search selects exactly the rows in the interval |
| `PackIndex.ContinueAfter` | ChaosDataService/db_system/MongoDBDriver.cpp:881-911 | searching on from the last time stamp plus one finds the remaining hits first |
| `DataCloudQuery.Query.ProcessQuery` | ChaosDataService/query_engine/QueryEngine.cpp:366-485 | one engine step in place: phase, then end of query or rescheduling |
| `DataCloudQuery.Query.FetchPhase` | ChaosDataService/query_engine/QueryEngine.cpp:386-404 | the fetch phase |
| `DataCloudQuery.Query.ForwardPhase` | ChaosDataService/query_engine/QueryEngine.cpp:406-421 | the forward phase |
| `DataCloudQuery.Query.SendDataToClient` | ChaosDataService/query_engine/QueryEngine.cpp:291-330 | the forwarding loop |
| `DataCloudQuery.Query.ReadDataPackPage` | ChaosDataService/vfs/VFSQuery.cpp:103-131 | page query when needed, then the read loop |
| `DataCloudQuery.Query.ReadPacks` | ChaosDataService/vfs/VFSQuery.cpp:115-127 | the read loop with its unsigned limit |
| `DataCloudQuery.Query.RemoveUnsent` | ChaosDataService/query_engine/QueryEngine.cpp:452-458 | packs never sent are deleted with their buffers |
| `DataFileTheorems.NewEntryDenotesExactlyWhen` | ChaosDataService/indexer/StageDataVFileScanner.cpp:128-158 | a new index entry denotes exactly the bytes of its pack if and only if the block whose location it took is still valid when the pack is written |
| `DataFileTheorems.FullBlockMisplacesNext` | ChaosDataService/indexer/StageDataVFileScanner.cpp:128-158 | a concrete full block after which the next pack is indexed where it is not written |
| `DataFileTheorems.EntriesAreForEver` | ChaosDataService/indexer/StageDataVFileScanner.cpp:94-173 | over every run, with any rescans, maintenance and failed scans, an entry keeps its place and what it denotes, stays disjoint from all others, and once querable stays so |
| `DataFileTheorems.QuerableExactlyWhen` | ChaosDataService/vfs/VFSDataWriteableFile.cpp:47-90 | an entry is querable if and only if its block was closed by a switch or by maintenance, and not by a failed scan |
| `DataFileTheorems.HowClosed` | ChaosDataService/indexer/StageDataVFileScanner.cpp:74-88 | the released blocks are exactly those closed by a switch or maintenance, the abandoned ones exactly those closed by a failed scan |
| `DataFileTheorems.StrandedForEver` | ChaosDataService/indexer/StageDataVFileScanner.cpp:175-179 | an entry whose block is closed by a failed scan is never queryable again, whatever is rescanned later |
| `DataFileTheorems.FailedScanStrandsEntry` | ChaosDataService/indexer/StageDataVFileScanner.cpp:175-179 | a concrete run: one pack, a failed scan, the rescan of the same pack, and the entry is stranded |
| `DataFileTheorems.EntriesDenoteOrPointPastEnd` | ChaosDataService/indexer/StageDataVFileScanner.cpp:94-173 | in every reachable state the entries that do not denote their pack are exactly the misplaced ones, which point at the end of a closed block |
| `DataFileTheorems.DataBlocksBounded` | ChaosDataService/vfs/VFSDataWriteableFile.cpp:105-113 | no data block exceeds max_block_size - 1 plus the longest pack |
| `DataFileEffects.PackOutcome` | ChaosDataService/indexer/StageDataVFileScanner.cpp:94-173 | whole state after a pack, in clock and bytes: it goes behind what its open block held, or first into a new block exactly when there is none or the open one has outlived its lifetime or reached max_block_size at the write; the entry names the block found before the write |
| `DataFileEffects.MaintenanceOutcome` | ChaosDataService/vfs/VFSFile.cpp:332-340 | maintenance at a time closes an open block and makes its entries querable exactly when that time is its opening plus lifetime or later, or it holds max_block_size bytes |
| `DataFileEffects.OpenAfterMaintenance` | ChaosDataService/vfs/VFSFile.cpp:143-150 | a block open after its maintenance was opened less than its lifetime ago and holds fewer than max_block_size bytes |
| `DataFileEffects.ReleasedWhenDue` | ChaosDataService/vfs/VFSFile.cpp:143-150 | over every run a block released by a write or by maintenance had reached one of the two limits at that moment |
| `DataFileEffects.FilesTimed` | ChaosDataService/vfs/VFSFile.cpp:75-96 | over every run the expiry of an open block is its opening time plus lifetime and its position is the number of bytes it holds |
| `DataFileEffects.CloseOutcome` | ChaosDataService/indexer/StageDataVFileScanner.cpp:74-88 | a failed scan closes exactly the files of its scanner and changes neither index nor storage |
| `DataFiles.StepKeepsArea` | ChaosDataService/vfs/VFSDataWriteableFile.cpp:47-113 | processing a pack, maintenance and closing all files of a scanner keep the area invariant |
| `DataFiles.StepExtends` | ChaosDataService/vfs/VFSFile.cpp:203-213 | a step never changes stored bytes, only extends open blocks, and never touches existing entries but for their state |
| `StageDataVFileScanner.Scanner.ProcessDataPack` | ChaosDataService/indexer/StageDataVFileScanner.cpp:94-173 | prefetch, location, index entry unless the key exists, write |
| `StageDataVFileScanner.Scanner.Write` | ChaosDataService/vfs/VFSDataWriteableFile.cpp:105-113 | validity is looked at again, perhaps a new block, then the append |
| `StageDataVFileScanner.Scanner.ReleaseDataBlock` | ChaosDataService/vfs/VFSDataWriteableFile.cpp:47-62 | the block is closed and its entries become querable |
| `StageDataVFileScanner.Scanner.PrefetchData` | ChaosDataService/vfs/VFSDataWriteableFile.cpp:95-100 | a block is opened if there is none |
| `StageDataVFileScanner.Scanner.Mantain` | ChaosDataService/vfs/VFSFile.cpp:332-340 | an open block stays exactly when its expiry lies ahead and it is below its size, otherwise it is released |
| `StageDataVFileScanner.Scanner.EndScanHandler` | ChaosDataService/indexer/StageDataVFileScanner.cpp:175-198 | after a scan without error the maintenance loop closes exactly the scanner's blocks that are no longer valid and writes nothing; after a failed scan all its files are given up |
| `StageDataVFileScanner.Scanner.CloseAllDatafile` | ChaosDataService/indexer/StageDataVFileScanner.cpp:74-88 | the loop closes all files of the scanner, leaving the index as it is |
| `Ingest.WrittenDocumentsAreIndexed` | ChaosDataService/indexer/StageDataVFileScanner.cpp:94-173 | stage and data area together, with any number of writers and indexers, failed scans and maintenance: every document ever written is still unread in some stage block or processed, and then, if it has the mandatory fields, there is an index entry for its key with the bytes of a written document of that key |
| `Ingest.EntriesComeFromStage` | ChaosDataService/indexer/StageDataVFileScanner.cpp:94-173 | conversely, the bytes of every index entry are those of a document with that key that was written to the stage area |
| `Ingest.PlantRunKeeps` | ChaosDataService/indexer/DataPackScanner.cpp:66-126 | the joint invariant of both areas holds in every reachable state |
| `PlantProgress.EverythingWrittenCanBeIndexed` | ChaosDataService/indexer/DataPackScanner.cpp:66-126 | progress: from every reachable state of stage and data area, without another write, the stage area can be emptied, and then every document ever written that has the mandatory fields is in the index under its key |
| `PlantProgress.PlantRefinesStage` | ChaosDataService/indexer/DataPackScanner.cpp:66-126 | seen from the stage area a joint run is a run of the stage area, each indexing turn a read and each failed scan an abort |
| `PlantProgress.PlantRefinesArea` | ChaosDataService/indexer/StageDataVFileScanner.cpp:94-179 | seen from the data area it is a run of the data area, in which each indexing turn stores the next document of the indexer's block if it has the mandatory fields, and a failed scan closes the indexer's files |
| `PlantProgress.StageRunLifts` | ChaosDataService/indexer/DataPackScanner.cpp:66-126 | conversely every run of the stage area can be had as the stage side of a joint run |
| `StageTheorems.StageConservation` | ChaosDataService/indexer/DataPackScanner.cpp:66-126 | with any number of writers and indexers in any interleaving: processed and still unread documents together are the written ones plus those redone after aborted scans; without aborts each is processed at most once, and exactly once when the stage area is empty |
| `StageTheorems.ScansInOrder` | ChaosDataService/vfs/VFSStageReadableFile.cpp:82-140 | each read of a scan processes the next document of its block, nothing changes the block meanwhile, and the block is removed exactly after its last document |
| `StageTheorems.BlocksExclusiveAndWhole` | ChaosDataService/vfs/VFSStageReadableFile.cpp:41-80 | at no time do two indexers, two writers or a writer and an indexer use the same block, and every block is a sequence of whole documents |
| `StageEffects.ClaimOutcome` | ChaosDataService/vfs/VFSStageReadableFile.cpp:41-80 | over every run the claim of a free block makes the indexer its reader from the start and marks it as being processed; the claim of any other block changes nothing |
| `StageEffects.StatesTell` | ChaosDataService/db_system/DBDriver.h:118-133 | in every reachable state a block is marked as acquiring exactly when a writer has it, as processing exactly when an indexer reads it, and free exactly when nobody uses it |
| `StageProgress.ReleasedCanBeIndexed` | ChaosDataService/indexer/DataPackScanner.cpp:66-126 | progress: from every reachable state a released block can be claimed by any idle indexer, read to its end and removed in as many steps as it has documents plus two; all its documents are then processed and nothing else has changed |
| `StageProgress.ScanCanFinish` | ChaosDataService/vfs/VFSStageReadableFile.cpp:82-140 | a scan can always be continued to its end, processing exactly the rest of its block |
| `StageProgress.EverythingCanBeIndexed` | ChaosDataService/indexer/DataPackScanner.cpp:66-126 | progress of the whole: from every reachable state the stage area can be emptied, and then the processed documents are the written ones plus those redone |
| `StageProgress.StageNeverStuck` | ChaosDataService/vfs/VFSStageReadableFile.cpp:41-140 | exactly which steps are possible in a reachable state |
| `StageEffects.WriteOutcome` | ChaosDataService/vfs/VFSStageWriteableFile.cpp:43-68 | whole state after a write: the document goes behind what the writer's block held, or alone into a new block exactly when there is none or this write is the sixteenth check and finds the block beyond its lifetime or size; the block left is free |
| `StageEffects.MaintenanceOutcome` | ChaosDataService/vfs/VFSFile.cpp:332-340 | maintenance frees a writer's block exactly when its opening time plus lifetime has come or it holds max_block_size bytes |
| `StageEffects.OpenAfterMaintenance` | ChaosDataService/vfs/VFSFile.cpp:143-150 | a stage block still open after maintenance is younger than its lifetime and below its size |
| `StageEffects.ReleasedWhenDue` | ChaosDataService/vfs/VFSStageWriteableFile.cpp:43-51 | over every run a block its writer gives up had reached one of the two limits at that moment |
| `StageEffects.WritersTimed` | ChaosDataService/vfs/VFSFile.cpp:75-96 | over every run the expiry of a writer's block is its opening time plus lifetime |
| `StageEffects.ReadOutcome` | ChaosDataService/vfs/VFSStageReadableFile.cpp:122-140 | a read processes the next document of the block and moves the reader behind it, nothing else |
| `StageEffects.FinishOutcome` | ChaosDataService/vfs/VFSStageReadableFile.cpp:82-119 | the end of a scan removes its block, all of whose documents have been processed |
| `StageEffects.AbortOutcome` | ChaosDataService/indexer/DataPackScanner.cpp:66-126 | a scan that stops early frees the whole block again |
| `StageTheorems.StageBlocksBounded` | ChaosDataService/vfs/VFSStageWriteableFile.cpp:43-68 | for any starting counter and any interleaving with maintenance every stage block stays below max_block_size plus sixteen times the longest record |
| `StageTheorems.SixteenRecordsReached` | ChaosDataService/vfs/VFSStageWriteableFile.cpp:43-68 | a concrete run with maximum size 0 in which a block reaches sixteen times the record |
| `StageRuns.StageRunKeeps` | ChaosDataService/vfs/VFSStageReadableFile.cpp:41-140 | the stage invariant and the absence of dangling block references hold in every reachable state |
| `StageRuns.NextDocument` | ChaosDataService/vfs/VFSStageReadableFile.cpp:82-140 | a reader at the end of the documents it has processed reads exactly the next one; the end of the block is reached exactly after the last |
| `StageRuns.ClaimedBlockUntouched` | ChaosDataService/vfs/VFSStageReadableFile.cpp:41-80 | no step but the end of its own reader's scan touches a claimed block |
| `StageBlocks.ScanRoundTrip` | ChaosDataService/indexer/DataPackScanner.cpp:85-122 | scanning a block of well-formed documents processes exactly these, in order, once each, and removes the block |
| `StageBlocks.UniqueReading` | ChaosDataService/indexer/DataPackScanner.cpp:94-109 | a block has at most one reading as well-formed documents |
| `StageBlocks.ScanOfAnyBlock` | ChaosDataService/indexer/DataPackScanner.cpp:85-122 | for any bytes whatsoever: what is processed is the beginning of the block cut at its length fields up to where nothing more can be read, and the block is removed if and only if nothing or just four bytes are left there |
| `StageBlocks.ScanStopsAtFailure` | ChaosDataService/indexer/DataPackScanner.cpp:110-122 | for any bytes: a document that fails is the last one processed and the block then stays; a failure beyond the last document changes nothing |
| `StageBlocks.FrameExactlyWhen` | ChaosDataService/indexer/DataPackScanner.cpp:94-109 | a document can be read exactly when its length field is there, exceeds the field, leaves a rest below 2^31 and stays within the block |
| `StageFiles.StageWriteableFile.IsDataBlockValid` | ChaosDataService/vfs/VFSStageWriteableFile.cpp:43-51 | every call counts, only every sixteenth looks at the block |
| `StageFiles.StageWriteableFile.Write` | ChaosDataService/vfs/VFSStageWriteableFile.cpp:54-68 | exactly the writing step of the stage area |
| `StageFiles.StageWriteableFile.Mantain` | ChaosDataService/vfs/VFSFile.cpp:332-340 | maintenance does not count; the block is kept exactly when its expiry lies ahead and it is below its size |
| `StageFiles.StageReadableFile.GetNextAvailableBlock` | ChaosDataService/vfs/VFSStageReadableFile.cpp:41-80 | the claim loop takes the first found block that is still free, by compare and set, and marks it as being processed, or takes none |
| `StageFiles.StageReadableFile.CheckForBlockChange` | ChaosDataService/vfs/VFSStageReadableFile.cpp:82-119 | a block read to its end is removed |
| `StageFiles.StageReadableFile.Read` | ChaosDataService/vfs/VFSStageReadableFile.cpp:122-140 | all or nothing, after the check for the end of the block |
| `StageFiles.StageReadableFile.ReadDocument` | ChaosDataService/indexer/DataPackScanner.cpp:94-109 | header and rest, or nothing |
| `StageFiles.StageReadableFile.Scan` | ChaosDataService/indexer/DataPackScanner.cpp:85-122 | the scan loop yields the specified documents and removes the block exactly when specified |
| `CachedReads.CachedReadsExact` | ChaosDataService/vfs/VFSQuery.cpp:69-83 | in every run of indexers, queries and cleans, a querable entry read through the cache yields exactly its pack's bytes, or fails if it was misplaced |
| `CachedReads.CachedReadIsDirectRead` | ChaosDataService/vfs/query/DataBlockFetcher.cpp:66-87 | a read through the cache succeeds exactly when the entry lies within its block and equals that slice of the block |
| `BlockCache.UseCountsExact` | ChaosDataService/vfs/query/DataBlockCache.cpp:57-115 | in every run of reads, disposals and cleans the use count of a cached fetcher is the number of live queries holding it, no held or cached pointer dangles, and only fetchers that could not be opened live outside the cache |
| `BlockCache.CleanDeletesUnheldOnly` | ChaosDataService/vfs/query/DataBlockCache.cpp:57-73 | a periodic clean deletes a cached fetcher if and only if no live query holds it and changes no other |
| `CacheEffects.ReadOutcome` | ChaosDataService/vfs/VFSQuery.cpp:53-83 | in every run a read uses the fetcher the query holds, else the shared one with one more user, else a new one with the size of the block; no block gives -3 and leaves table and queries alone; an offset behind the opening size gives -1000, a short read -1 and a spoilt stream |
| `CacheEffects.DisposeOutcome` | ChaosDataService/vfs/VFSQuery.cpp:42-50 | the end of a query takes one user off each fetcher it held and deletes nothing |
| `CacheEffects.OpenOutcome` | ChaosDataService/vfs/VFSQuery.cpp:34-40 | a new query holds nothing |
| `CacheEffects.ServiceRefinesArea` | ChaosDataService/vfs/VFSQuery.cpp:53-83 | seen from the data area a joint run of indexers and queries is a run of the indexers alone |
| `CacheEffects.ServiceRefinesCache` | ChaosDataService/vfs/VFSQuery.cpp:53-83 | seen from the cache it is a run of opens, reads at the places the entries name, ends and cleans |
| `CacheEffects.ShortReadSpoils` | ChaosDataService/vfs/query/DataBlockFetcher.cpp:66-87 | after a short read every later read through the same fetcher fails |
| `DataBlockCache.Cache.GetFetcherForBlockWithPath` | ChaosDataService/vfs/query/DataBlockCache.cpp:76-107 | shares a cached fetcher, opens a new one, or reports the failure to open |
| `DataBlockCache.Cache.GetDataPackForIndex` | ChaosDataService/vfs/VFSQuery.cpp:53-83 | fetcher of the query, of the cache or new, then the read |
| `DataBlockCache.Cache.ReadData` | ChaosDataService/vfs/query/DataBlockFetcher.cpp:66-87 | offset check against the size at opening, seek and read; a short read spoils the stream |
| `DataBlockCache.Cache.DisposeQuery` | ChaosDataService/vfs/VFSQuery.cpp:42-50 | the destructor loop releases each held fetcher once |
| `DataBlockCache.Cache.Clean` | ChaosDataService/vfs/query/DataBlockCache.cpp:57-73 | the erasing loop removes exactly the unused fetchers |
| `ConnectionRotation.ServersArePermuted` | ChaosDataService/db_system/MongoDBHAConnectionManager.cpp:131-187 | over all calls valid and offline servers together are a permutation of the configured ones |
| `ConnectionRotation.SucceedsExactlyWhen` | ChaosDataService/db_system/MongoDBHAConnectionManager.cpp:152-187 | a call succeeds if and only if some server in the queue answers, and gets the first such one |
| `ConnectionRotation.CallOutcome` | ChaosDataService/db_system/MongoDBHAConnectionManager.cpp:131-187 | after a call the offline queue is the old one, less the retried server, followed by exactly the servers probed without answer in queue order; the valid queue is the servers not probed in their places, then the one that answered |
| `ConnectionRotation.ProbedStayExactlyWhenHealthy` | ChaosDataService/db_system/MongoDBHAConnectionManager.cpp:152-187 | with distinct servers, a probed server is in the valid queue afterwards if and only if it answered and offline if and only if it did not; a server that is not probed stays valid |
| `ConnectionRotation.EachServerOnce` | ChaosDataService/db_system/MongoDBHAConnectionManager.cpp:152-187 | with all n servers answering and none offline, any n consecutive calls use each server exactly once, in queue order |
| `ConnectionRotation.HealthyServerRecovers` | ChaosDataService/db_system/MongoDBHAConnectionManager.cpp:122-146 | a server that always answers is back in use after at most as many retries as its place in the offline queue, whatever the others do, and from then on every call succeeds |
| `ConnectionRotation.MongoDBHAConnectionManager.GetConnection` | ChaosDataService/db_system/MongoDBHAConnectionManager.cpp:131-187 | retry of one offline server, then the probing loop; no place in the queue is probed twice |
| `ConnectionRotation.MongoDBHAConnectionManager.Probe` | ChaosDataService/db_system/MongoDBHAConnectionManager.cpp:152-182 | failed servers go offline in order, the first that answers goes to the end of the queue |
| `ConnectionRotation.RetriesAreSpaced` | ChaosDataService/db_system/MongoDBHAConnectionManager.cpp:122-129 | over all calls two retries of offline servers are more than 1500 ms apart |

## Left out

- Data races on fields read after unlocking, thread priorities, semaphores and step delays: steps are atomic under the mutexes the code takes.
- `deinit` and a second `init` of the executor: ids restart there, the model stays within one epoch.
- The text of fault descriptions and the contents of shared attributes.
- The lock bits of command features: bit 1 is never set in the repository, so changes of the running property always succeed.
- Handler mask bits beyond set, acquire and correlation.
- The order among submissions of equal priority in the queue: the model allows any of them to be first.
- The sweep that frees blocks of timed-out writers (ChaosDataService/StageDataConsumer.cpp:105-108): its clock helpers are not part of this model, so exclusivity is proved for runs without it.
- Errors of the database and the storage while packs are indexed or blocks are switched, released or removed, journal text and heartbeats.
- `clean(true)` at shutdown of the block cache, which deletes fetchers whether held or not.
- The crash of the storage driver when a block to be read does not exist: modelled as an error of opening.
- 32 bit wrap-around of use counts upwards (more than 2^32 live queries); downwards it is modelled.
- QueryTheorems.QueryAnswered: needs fewer than 2^32 hits, because counters and running numbers are 32 bit, positive time stamps, and a store that returns rows in ascending order.
- QueryTheorems.DefaultQueryAnswered: the same limits.
- Pipeline.QuerySendsStoredPacks: the same limits; the rows of the device the query asks for do not change while it is answered, the page dimension is within the read limit, and nothing but reads fails (failures of the channel and disconnections are in `QueryMemory`).
- BatchCommandSandbox.Sandbox.KillCurrentCommand: a kill of an idle sandbox does nothing in the model; the program dereferences the current pointer untested (chaos/common/batch_command/BatchCommandSandbox.cpp:717), and the only guard (chaos/common/batch_command/BatchCommandExecutor.cpp:608) is outside the mutex.
- Deleting a file through a base pointer without a virtual destructor is undefined in the language; the model takes it to run the base destructor only.
- A scan that fails in the middle of storing a pack: the model fails a scan between two documents.
- IndexCursor.TimeStampsStrictlyIncrease: an empty page reads before the start of the page vector in the program; such runs are excluded.
- Rounding of the page number in floating point.
- Uniqueness of generated block names is an assumption of the steps that open blocks.
- Connection maps, channels and client bookkeeping of the query engine, snapshots, cache drivers, configuration, command line tools: plumbing around the modelled logic.
