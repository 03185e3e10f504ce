# MySQLOO in Dafny

MySQLOO gives Lua scripts asynchronous SQL: the Lua thread starts, waits for, aborts and delivers queries, and one
database thread takes them from a queue and executes them. This project models the parts of it where the two threads,
the server and the scripts meet, and proves what they promise.

* **Life of a query.** `Lifecycle` is a state machine whose steps are the stretches of code that no other thread can see
  half done. It has the queue with its poison pill, the waiter slot, the finished list, nested callbacks on a stack of
  loops, and a history that no step looks at. `Conservation`, `Delivery`, `Progress`, `Drain`, `Outstanding` and
  `Statuses` prove invariants over all its runs. `Callbacks` proves which callback every delivery runs, `Calls` what
  `disconnect`, `wait` and `abort` have done when they go on, `Orders` when results come in the order of the starts, and
  `Turns` in which order the database thread does what it does. `Outcomes` says exactly which steps change a result or a
  status after it was recorded, `Reach` exactly which data can still be executed; `Corners` holds runs that show where a
  stronger statement is false.
  `Databases` and `BlockingQueues` give the same operations in the source's form, classes whose fields are changed in
  place, and prove that each performs exactly the update the state machine uses.
* **Transactions.** `Servers` is an abstract server seen through a session: committed effects, open overlay, autocommit
  and live flags. What it answers is arbitrary. `Transactions` executes, repairs and retries in place and on values.
  `Atomicity` proves exactly when a transaction is all or nothing, and `Members` what its members' data say afterwards.
  `SingleRetry` does the retry of a single query, which does not clear the first attempt's results. `Chains` puts queries,
  transactions, pings and lost connections one after the other on one session.
* **Handles.** `Statements` closes and frees prepared statements in place, `Ownership` interleaves both threads,
  `Connections` does the same for the connection handle and its two mutexes.
* **Parameters and results.** `Parameters` relates what a start captures to the history of setter calls,
  `PreparedExecution` fills the bind array and executes parameter sets, `Results` reads the three parallel queues,
  `DataCache` relates the cached Lua table to the current result set, `BitFields` decodes BIT columns.

Statements about "every run" quantify over all step sequences from the initial state. Where the code does not meet a
property on all inputs, the exact condition is proved, or the whole failing family is given next to the property under
its guard.

What the model assumes of the outside:

* Script code may do anything between two steps, including inside callbacks. A started query gets a fresh data object,
  a transaction is started once, and each data object is in one transaction at most.
* `abortAllQueries` is taken only when no pill is queued: the source dereferences the pill's null pair there
  (`src/lua/LuaDatabase.cpp:260-266`).
* The server's answers are given from outside, one per call. A lost session is rolled back by the server. Effects of
  statements are transactional.
* The results of `Atomicity` are about a transaction that finds the session clean: without open effects, and in
  autocommit or gone. `Chains.AlwaysCleanIff` says exactly when every job of a sequence does.
* Scripts do not change the tables they are handed.

Where the repository's own description and its code differ, the code is followed. Its README says that either all
queries of a transaction are executed or none of them are; the code retries a transaction whose commit was answered with
an error, so that a commit the server carried out all the same is repeated (`Atomicity.LostCommitRunsTwice`).

## Model

| member | source | states |
|---|---|---|
| BlockingQueues.BlockingQueue.Put | src/BlockingQueue.h:12-18 | the element becomes the last one, the rest stays |
| BlockingQueues.BlockingQueue.Take | src/BlockingQueue.h:52-58 | the first element is returned and removed, order kept |
| BlockingQueues.BlockingQueue.Size | src/BlockingQueue.h:47-50 | the number of queued elements |
| BlockingQueues.BlockingQueue.SwapToFrontIf | src/BlockingQueue.h:24-32 | the search loop exchanges the first match with the front, and reports a swap only when the match was not in front already |
| BlockingQueues.BlockingQueue.RemoveIf | src/BlockingQueue.h:34-40 | the compacting loop removes all matches, keeps the order of the others, and reports whether one existed |
| BlockingQueues.BlockingQueue.Clear | src/BlockingQueue.h:60-65 | the old contents are returned in order, the queue is empty |
| BlockingQueues.FindIfUnique | src/BlockingQueue.h:26 | the search result is the only position with a match and none before it |
| BlockingQueues.SwappedIfIsSwapToFront | src/mysql/IQuery.cpp:47-52 | for the predicate the callers pass, the swap moves the one entry that carries the data |
| BlockingQueues.SwapToFrontExchanges | src/BlockingQueue.h:24-32 | a swap puts the first entry with the data in front, the front entry into its place, and leaves every other entry where it is |
| BlockingQueues.FilteredOutIsWithout | src/mysql/IQuery.cpp:75-78 | for the predicate the callers pass, removal takes out exactly that entry |
| BlockingQueues.SwapToFrontPermutes | src/BlockingQueue.h:24-32 | a swap neither loses nor duplicates an entry |
| BlockingQueues.WithoutCounts | src/BlockingQueue.h:34-40 | removal leaves none of the removed entry and all of every other |
| Databases.Database.EnqueueQuery | src/mysql/Database.cpp:85-89 | the data is queued last and only then marked waiting |
| Databases.Database.Shutdown | src/mysql/Database.cpp:202-208 | a pill is queued last, nothing else changes |
| Databases.Database.AbortAllQueries | src/mysql/Database.cpp:103-112 | the loop marks all and only the queued data aborted and finished, skips pills, and the queue is empty |
| Databases.Database.RemoveFromQueue | src/mysql/IQuery.cpp:75-83 | the data leaves the queue and is marked if and only if it was queued |
| Databases.Database.FailWaitingQuery | src/mysql/Database.cpp:317-324 | the data is finished with an error and published, and stays queued |
| Databases.Database.AbortWaitingQuery | src/mysql/Database.cpp:332-343 | waiting becomes impossible, and whoever waits is failed and leaves the slot |
| Databases.Database.WaitForQuery | src/mysql/Database.cpp:347-360 | it blocks if and only if waiting is possible and the data unfinished, and fails the data only when waiting is impossible |
| Databases.Database.TakeFinishedQueries | src/mysql/Database.h:116-118 | all published data is handed over in order |
| Databases.Database.RecordOutcome | src/mysql/Database.cpp:471-473 | the result is recorded, an error text only with an error, and the status is complete |
| Databases.Database.FinishServed | src/mysql/Database.cpp:476-485 | the data is finished, and the waiter slot is given up only if it holds this data |
| Databases.Database.Serve | src/mysql/Database.cpp:466-485 | one turn of the loop performs the life cycle's steps in order: running, result, publish, finish |
| Databases.Database.RunToPill | src/mysql/Database.cpp:456-490 | the take loop serves exactly the entries ahead of the first pill, in order, and leaves those behind it |
| Databases.ServedAllEffect | src/mysql/Database.cpp:461-489 | serving publishes the data in order, each finished and complete with its own result; other data is untouched |
| Databases.IQuery.AddQueryData | src/mysql/IQuery.cpp:173-178 | the data is listed last, and marked first only if nothing was started before |
| Databases.IQuery.Start | src/mysql/IQuery.cpp:165-170 | listed, queued, marked waiting, and only then is the query marked started |
| Databases.IQuery.Wait | src/mysql/IQuery.cpp:40-54 | it waits for the data started last, after an optional swap, and fails only when nothing is outstanding |
| Databases.IQuery.FinishQueryData | src/mysql/IQuery.cpp:180-191 | the fast or the slow path takes the data off the list |
| Databases.IQuery.Abort | src/mysql/IQuery.cpp:66-86 | the loop over the outstanding list aborts each data that is still queued, and reports those |
| Databases.AbortRemovesExactly | src/mysql/IQuery.cpp:66-86 | aborting takes exactly this query's queued data out, keeps the rest of the queue in order with its records, and reports what it took in start order |
| Conservation.StepKeeps | src/mysql/Database.cpp:85-112 | every step of either thread keeps the whole invariant |
| Conservation.PlacesOverRuns | src/mysql/Database.cpp:461-486 | after every run started data is in exactly one place, plus one copy per failed wait; it is queued or running at most once, and taken or aborted at most once |
| Conservation.FinishedIsPublished | src/mysql/Database.cpp:475-486 | after every run finished data has been published already: it is in the finished list, in a loop of the Lua thread, or delivered |
| Conservation.WaiterSlotOverRuns | src/mysql/Database.cpp:347-360 | after every run the waiter slot names unfinished data that the Lua thread is blocked on |
| Conservation.TakenBackIsNotWritten | src/mysql/Database.cpp:461-475 | after every run data that the Lua thread has in a loop or has delivered, no wait on which has failed, is neither queued nor in the thread's hands, so that nothing writes to it any more |
| Delivery.CallbacksAtMostOnce | src/lua/LuaIQuery.cpp:137-162 | over every run in which no callback delivers its own data again, each data has at most one success, error or aborted callback, even when it is in both queues |
| Delivery.SecondCallbackIff | src/lua/LuaObject.cpp:101-120 | over every run data has a second callback if and only if, at some point, it was delivered from inside its own callback and both deliveries found a callback to run |
| Delivery.RepeatStepIff | src/lua/LuaIQuery.cpp:137-162 | step by step: where callbacks have run at most once, only such a delivery runs a second one |
| Delivery.ReferencesFreedOnce | src/mysql/IQuery.cpp:193-215 | over every run each Lua reference a start made is freed exactly once when its data was delivered, and is still held otherwise |
| Delivery.CallbacksTellTheTruth | src/lua/LuaIQuery.cpp:73-97 | success means executed with success, error means executed with an error or a failed wait, aborted means never executed |
| Delivery.DeliveriesHaveResults | src/lua/LuaIQuery.cpp:141-144 | the no-result case of the delivery switch never happens for started data |
| Delivery.WaitReturnsDelivered | src/lua/LuaIQuery.cpp:21-36 | when `wait` returns, its data has been delivered, or a loop around the call holds it: exactly one of the two when it was started and no wait on it failed, and always delivered outside callbacks |
| Callbacks.DeliveryRunsIff | src/lua/LuaObject.cpp:101-120 | a delivery runs the callback its loop and the recorded result ask for if and only if that can be found: kept as a reference, or, for the first data of a query, as a field of the table; it runs at most this one |
| Callbacks.GivenCallbackRuns | src/lua/LuaIQuery.cpp:137-162 | with the references to its table and its callback still kept, every delivery of aborted data runs the aborted callback, of a success the success callback, of an error the error callback |
| Callbacks.DueCallbackRuns | src/lua/LuaIQuery.cpp:137-162 | after every run, whatever callbacks do, started data no wait on which has failed has had no callback before its delivery, and from then on exactly the one that tells what happened to it if its start kept that one; none if the start kept none and the data was not its query's first |
| Callbacks.FailedWaitIsTold | src/mysql/Database.cpp:317-324 | after every run, delivered data on which a wait has failed has had a callback if its start kept all three; and if it was neither executed nor aborted, only error callbacks, and one if its start kept it |
| Calls.DisconnectJoinsIff | src/mysql/Database.cpp:214-219 | `disconnect` queues a pill last, and stops to join the thread if and only if it was asked to wait, `connect` has started one, and it was not joined before |
| Calls.DisconnectWaits | src/mysql/Database.cpp:214-219 | `disconnect(true)` goes on only after a join, at which the thread has ended; until then no other step of the Lua thread is taken, and by then everything that had been taken, and everything queued ahead of the first pill, all of the queue if there was none, has been executed exactly once and is finished, unless the connection was refused |
| Calls.WaitIsForTheLast | src/mysql/IQuery.cpp:40-54 | `wait` is for the data of the query that was started last and not delivered; a swap brings it to the front; the call goes on to the finished list only when that data is finished, with the loops around it as they were |
| Calls.WaitBlocksIff | src/mysql/Database.cpp:347-360 | in every reachable state a `wait` fails and publishes its data at once before `connect` and after the end of the thread; otherwise it blocks, in the waiter slot, if and only if the data is unfinished, and else changes nothing |
| Calls.AbortTakesTheRest | src/mysql/IQuery.cpp:66-86 | while the database thread goes on, `abort` aborts exactly that data of the query that was queued when it began and was not taken meanwhile, delivers it in start order, and leaves nothing of the query queued and every other query's entries alone |
| Calls.AbortAllTakesAll | src/mysql/Database.cpp:103-112 | `abortAllQueries` empties the queue, marks all that was queued, and goes over it in the order of the queue |
| Calls.ScriptCalls | src/mysql/Database.cpp:163-171 | in every reachable state in which script code runs every call can be made, `connect` exactly once, `wait` exactly while data of the query is outstanding, and a callback can return |
| Calls.ScriptStarts | src/mysql/IQuery.cpp:165-170 | script code can start a query, or a transaction of any members, with new data at any time |
| Orders.SwapKeepsDataIff | src/BlockingQueue.h:24-32 | a swap keeps the order of the queued data if and only if no data is ahead of what it moves |
| Orders.ExecutedInStartOrderIff | src/mysql/Database.cpp:460-472 | over every run, what was taken followed by what is queued is at every point the started data in start order without what was aborted, if and only if no swap moves data past other data |
| Orders.DeliveredInTakenOrderIff | src/lua/LuaDatabase.cpp:398-402 | over every run without failed waits, what was delivered without being aborted, followed by what loops hold, what is published and what is being executed, is at every point the data in the order of execution, if and only if no callback begins a loop over published data while a loop around it holds earlier data |
| Orders.DeliveredInStartOrder | src/lua/LuaDatabase.cpp:398-402 | so without such swaps and such loops scripts get results in the order in which they started the queries |
| Turns.WorkerOrderIff | src/mysql/Database.cpp:456-490 | in every reachable state the database thread can take exactly the steps that follow its last one: one attempt to connect, turns of take, run, record, publish, finish, each about the data taken last, and the end after a pill or a failed attempt |
| Turns.TakeTakesFront | src/mysql/Database.cpp:461-467 | a take removes the entry in front, ends the loop at a pill, and changes nothing else |
| Turns.FirstIff | src/mysql/IQuery.cpp:165-178 | over every run data, members of transactions included, is marked first if and only if nothing of its query had been started when it was made, and keeps that; a start records what the script asked for |
| Progress.WaiterIsServed | src/mysql/Database.cpp:347-360 | while the Lua thread is blocked on directly started data, that data is in the waiter slot and queued or running |
| Progress.TakeDescends | src/mysql/Database.cpp:461-467 | every take brings the end of a wait nearer: fewer entries ahead of the nearer of the data and the first pill |
| Progress.WorkDescends | src/mysql/Database.cpp:456-490 | so does every step of the database thread, apart from the failed `mysql_init` |
| Progress.WaitIsBounded | src/mysql/Database.cpp:456-490 | a wait is over after a bounded number of steps |
| Progress.StuckIff | src/mysql/Database.cpp:332-360 | the exact states in which nothing can happen any more |
| Progress.DirectWaitStuckIff | src/mysql/Database.cpp:390-397 | after every run a wait on directly started data is stuck if and only if the thread left through the failed `mysql_init` |
| Progress.DirectWaitEnds | src/mysql/Database.cpp:332-360 | after every run a wait on directly started data ends within a bound, on every continuation that avoids that exit |
| Progress.AbortedWaiterWasNeverExecuted | src/mysql/Database.cpp:332-343 | directly started data that is failed when the thread ends was never executed, so that no result is lost there |
| Progress.MemberWaitEndsIff | src/mysql/Database.cpp:476-485 | a wait on data that was not started directly, such as a transaction's member, ends if and only if the thread ends and fails it |
| Drain.SwapKeepsIff | src/BlockingQueue.h:24-32 | a swap keeps the set of data ahead of the first pill if and only if the entry it moves is ahead of the pill itself, or it moves none |
| Drain.DisconnectDrains | src/mysql/Database.cpp:202-219 | for a pill queued before `connect`, while connecting or while serving, and swaps that stay ahead of it: everything ahead of it is executed exactly once or aborted before the loop ends, and nothing behind it is executed; if the connection fails instead, nothing is |
| Outstanding.DroppedIsWithoutIff | src/mysql/IQuery.cpp:180-191 | the fast and the slow path agree if and only if the data is not listed a second time |
| Outstanding.RunningListIsOutstanding | src/mysql/IQuery.cpp:33-35 | after every run each query's list is the data the run has started for it, members of transactions included, in start order, without what was delivered and the members of delivered transactions, and without repetition |
| Statuses.StatusFitsStage | src/mysql/Database.cpp:471-473 | after every run the status of started data fits its stage. Once its `start` has returned and while no wait on it has failed: waiting while queued, aborted once aborted, running or complete by the thread apart from the late mark that `Outcomes.LeftWaitingIff` describes. After a failed wait: complete while queued and after an execution, running during one, aborted or complete once aborted |
| Outcomes.ExecutedRecord | src/mysql/Database.cpp:471-473 | after a result is recorded only a failed wait, the last part of `start` and the success path of a transaction write the record again, and how |
| Outcomes.ResultChangesIff | src/mysql/Database.cpp:350-356 | a recorded result changes if and only if a wait on its data finds that waiting is impossible and it was a success |
| Outcomes.ResultLostIff | src/mysql/Database.cpp:350-356 | after every run the recorded result differs from what the execution gave if and only if some step of the run was such a wait |
| Outcomes.CallbackKindIff | src/lua/LuaIQuery.cpp:141-159 | a delivery of executed data runs the success callback if and only if the execution succeeded, no such wait happened and the callback can be found, the error callback if and only if it failed or such a wait happened and that one can be found, and otherwise none |
| Outcomes.BackToWaitingIff | src/mysql/Database.cpp:86-87 | executed data that says complete says waiting again if and only if the step is the last part of its own `start` |
| Outcomes.LeftWaitingIff | src/lua/LuaTransaction.cpp:127-128 | after every run executed data is left saying waiting if and only if that part came after the execution and neither a failed wait nor the success path of a transaction has said complete since |
| Outcomes.ErrorTextIs | src/mysql/Database.cpp:317-343 | after every run the error text of a data object is the last one written: of a wait that found waiting impossible, of the end of the thread it was waited for at, or of an execution that failed |
| Reach.PassesPill | src/BlockingQueue.h:24-32 | a script can move a pill in front of the queue behind everything that is queued, by starting a query and waiting for it with a swap |
| Reach.CanBeExecutedIff | src/mysql/Database.cpp:456-490 | in every reachable state in which script code runs, some continuation executes started data if and only if it has been executed, is about to be, or is queued while the thread has not left its loop |
| Reach.FailedWaitExecutesLaterIff | src/mysql/Database.cpp:317-324 | data that a failed wait left queued can still be executed if and only if the thread has not left its loop: always before the thread is started, never once it has ended |
| Corners.WaitInOwnCallback | src/mysql/Database.cpp:350-353 | a run in which a wait inside its own error callback runs that callback twice |
| Corners.FailedWaitExecutesLater | src/mysql/Database.cpp:317-324 | a run in which data whose error was delivered is executed with success afterwards |
| Corners.WaitOverwritesSuccess | src/mysql/Database.cpp:350-356 | a run in which a wait after the thread has ended replaces a recorded success by an error |
| Corners.InitFailureStrandsWaiter | src/mysql/Database.cpp:390-397 | a run in which the failed `mysql_init` leaves the Lua thread blocked for ever |
| Corners.MemberWaitNeverEnds | src/mysql/Database.cpp:478-479 | a run in which a wait on a transaction's member never ends, because nobody marks it finished |
| Corners.StatusIsNotMonotone | src/mysql/Database.cpp:86-87 | a run in which finished data says it is waiting |
| Corners.SwapLosesFront | src/BlockingQueue.h:24-32 | a run in which a swap from behind the pill moves the front entry behind it, where it is never executed |
| Corners.NestedWaitReturnsEarly | src/lua/LuaDatabase.cpp:398-402 | a run in which a wait inside a callback returns before its data is delivered |
| Servers.Server.SetAutocommit | src/mysql/Transaction.cpp:66-73 | turning autocommit on commits what is open; a lost session reports an error and changes nothing |
| Servers.Server.Commit | src/mysql/Transaction.cpp:75-81 | the overlay is committed, or an error is reported whether or not the server carried it out |
| Servers.Server.Rollback | src/mysql/Transaction.cpp:40 | the overlay is dropped unless the rollback fails on a session that survives |
| Servers.Server.Execute | src/mysql/Query.cpp:16-32 | the arriving sets are stored in order and the statement's effects go to the overlay or are committed, up to where it breaks |
| Servers.Server.Reconnect | src/mysql/Database.cpp:492-508 | the new session is live, in autocommit and empty, and committed effects stay |
| Servers.GoneAnswersNothing | src/mysql/Transaction.cpp:66-81 | on a session that is gone every call reports that, and changes and stores nothing |
| Servers.ExecutedEffects | src/mysql/Query.cpp:16-32 | a statement has all its effects when it is done and the first ones up to where it broke otherwise, committed at once in autocommit and open otherwise; an error that loses the session loses what is open |
| Transactions.TransactionData.Prepare | src/mysql/Transaction.cpp:11-17 | the loop resets every member's status, error and results |
| Transactions.TransactionData.ExecuteMember | src/mysql/Transaction.cpp:22-30 | a member that is executed is complete with success, one that fails carries the error |
| Transactions.TransactionData.ExecuteMembers | src/mysql/Transaction.cpp:21-31 | the member loop ends at the first error with everything after it untouched |
| Transactions.TransactionData.Repair | src/mysql/Transaction.cpp:46-61 | the loop gives every member that did not complete an error and a readable empty set, and leaves the others |
| Transactions.TransactionData.ExecuteStatement | src/mysql/Transaction.cpp:7-64 | one attempt in place: prepare, execute, commit or roll back and repair, and always autocommit again |
| Transactions.TransactionData.Run | src/mysql/Database.cpp:432-451 | the transaction is attempted again exactly once, after a retriable error and a reconnect that worked |
| Atomicity.MembersSession | src/mysql/Transaction.cpp:19-31 | while members are executed nothing is committed, and the effects of those that were executed are added to the overlay in order |
| Atomicity.AttemptCommits | src/mysql/Transaction.cpp:10-63 | a successful attempt commits every member's effects once in order, a failed one exactly its leak |
| Atomicity.RunCommits | src/mysql/Database.cpp:432-451 | for all members, errors and reconnects on a clean session the committed state grows by the leaks of failed attempts and then, on success, by all effects once |
| Atomicity.AllOrNothingIff | src/mysql/Database.cpp:432-451 | from a clean session a transaction is all or nothing, across its retry, if and only if no failed attempt leaked: no failed commit was carried out with effects, and no failed rollback on a live session with open effects was followed by a successful change to autocommit |
| Atomicity.AtomicAcrossRetry | src/mysql/Transaction.cpp:7-64 | from a clean session it is all or nothing whenever failed commits have no effect and failed rollbacks mean a lost session, for every member list and all errors |
| Atomicity.LostCommitRunsTwice | src/mysql/Database.cpp:437-441 | for all members: a commit that was carried out but answered with a retriable error commits everything twice and reports success |
| Atomicity.CleanAfterIff | src/mysql/Transaction.cpp:35-44 | after an attempt the session is in autocommit or gone if and only if turning autocommit on did not fail on a live session |
| Atomicity.CleanAfterRunIff | src/mysql/Database.cpp:432-451 | the same after the retry, for the attempt that was the last |
| Members.FirstBroken | src/mysql/Transaction.cpp:21-31 | the index of the first member whose statement breaks: all before it are done |
| Members.MembersData | src/mysql/Transaction.cpp:21-31 | the member loop ends at that index, and every member's data is as its own answer says |
| Members.RepairedIs | src/mysql/Transaction.cpp:46-61 | the repair leaves a completed member alone, aborts a running one with an error and an empty set behind what it had stored, and completes any other with an error |
| Members.FailedAttemptMembers | src/mysql/Transaction.cpp:38-62 | the exact data of every member after a failed attempt: complete with its own sets before the failing one, what it had stored with its error text and an empty set for the failing one, an empty set for the others; the failing one is member 0 if autocommit could not be turned off, and the member count if only the commit failed |
| Members.FailedMemberKeepsCounters | src/mysql/Query.cpp:69-88 | `lastInsert` and `affectedRows` of the failing member tell the counters of the first set it had stored, although they were rolled back; its data is that of a member never executed, apart from the error text, if and only if it had stored nothing |
| Members.FailedMemberReads | src/mysql/Query.cpp:58-67 | reading on shows the counters of every set it had stored, the half stored one included, while `hasMoreResults` stays false |
| Members.FailedStatuses | src/mysql/Transaction.cpp:46-61 | of a failed transaction exactly the members before the failing one are complete with success, all others aborted with an error; only the failing one can carry text, and those behind it tell zero counters |
| Members.SucceededAttemptMembers | src/mysql/Transaction.cpp:33-37 | on success every member is complete with exactly its own result sets |
| Members.CompletedReadsServerOrder | src/mysql/Query.h:50-68 | reading a completed member yields its sets in the order of the server |
| Members.MemberStatusPrefix | src/mysql/Transaction.cpp:10-63 | across the retry the members' data is a function of the answers of the last attempt alone, cut where that attempt ended, whatever it held before |
| Members.AttemptError | src/mysql/Transaction.cpp:7-64 | the error an attempt throws is that of a session already gone, or the first error a call is answered with |
| Members.AttemptedAgainIff | src/mysql/Database.cpp:510-523 | for all answers a transaction is attempted again if and only if retries are on, the error is one of the seven retriable ones, and the reconnect works; then on a new session; result and error text are those of the last attempt |
| SingleRetry.Run | src/mysql/Database.cpp:432-451 | a single query in place: executed, and executed again once after a retriable error and a reconnect |
| SingleRetry.RetryKeepsBoth | src/mysql/Database.cpp:432-451 | for all answers, with or without a retry: the data holds the sets of both attempts one after the other, and the effects of both are committed, as far as each was made and got |
| SingleRetry.RetriedExactIff | src/mysql/Database.cpp:437-441 | a query that is executed again ends with the data of the second attempt alone, whatever that is answered, if and only if the first had stored nothing |
| SingleRetry.RetriedAlignedIff | src/mysql/PreparedQuery.cpp:210-230 | for all answers, with or without a retry, the three queues stay parallel if and only if no attempt that was made failed between a set's counters and its rows |
| SingleRetry.RetriedOnceIff | src/mysql/Database.cpp:437-441 | on a clean session a query that succeeds has its effects committed exactly once if and only if a failed first attempt had none; one that fails has nothing committed if and only if no attempt had any |
| SingleRetry.ExecutedAgainIff | src/mysql/Database.cpp:510-523 | for all answers a single query is executed again if and only if retries are on, the error is one of the seven retriable ones, a session already gone included, and the reconnect works; then on a new session; result and error text are those of the last time |
| Chains.AlwaysCleanIff | src/mysql/Transaction.cpp:35-44 | over every sequence of queries, transactions, pings and lost connections, every one finds the session clean if and only if no transaction failed to turn autocommit back on on a session that survived |
| Chains.PingCleansIff | src/mysql/PingQuery.cpp:18-20 | a ping leaves the committed state alone and a session that answers as it is; afterwards the session is there if it was or the reconnect works, and a stuck one is clean if and only if the ping reconnected |
| Chains.ChainCommits | src/mysql/Database.cpp:456-490 | until then the committed state grows by what each of them commits, in order |
| Chains.EachAtomicIff | src/mysql/Transaction.cpp:7-64 | until then every transaction of the sequence is all or nothing if and only if no failed attempt of any of them leaked |
| Chains.HonestChainIsAtomic | src/mysql/Transaction.cpp:38-44 | when failed commits have no effect, and a failed rollback or change to autocommit means a lost session, every transaction of every sequence is all or nothing and every job finds the session clean |
| Chains.StuckQueryWaits | src/mysql/Transaction.cpp:42-44 | on a session left without autocommit a query that succeeds commits nothing, its effects stay open |
| Chains.StuckEffectsAreCommittedLater | src/mysql/Transaction.cpp:33 | the next transaction that completes there commits them with its own |
| Chains.StuckEffectsAreLost | src/mysql/Transaction.cpp:40 | a transaction that fails there and is rolled back takes them with it |
| Statements.StatementOwner.CacheStatement | src/mysql/Database.cpp:35-41 | a new valid handle owns the statement, a null statement gets a handle nobody owns |
| Statements.StatementOwner.FreeLocked | src/mysql/Database.cpp:46-52 | whatever was seen before the mutex was taken, a cached statement moves to the freed ones, and the handle is invalid |
| Statements.StatementOwner.FreeStatement | src/mysql/Database.cpp:44-53 | nothing happens for a null or invalid handle |
| Statements.StatementOwner.FreeUnusedStatements | src/mysql/Database.cpp:74-81 | the loop closes every freed statement and none is left |
| Statements.StatementOwner.FreeCachedStatements | src/mysql/Database.cpp:57-70 | the two loops close every cached and freed statement once, invalidate every handle, and nothing is left |
| Statements.AllFreedSound | src/mysql/Database.cpp:57-70 | no statement is closed twice by it and no handle is valid afterwards |
| Statements.AllFreedCloses | src/mysql/Database.cpp:57-70 | exactly the cached and the freed statements are closed by it |
| Statements.UnusedFreedSound | src/mysql/Database.cpp:74-81 | exactly the freed statements are closed by the clean-up after a query, cached ones stay open and valid |
| Statements.CachedSound | src/mysql/Database.cpp:35-41 | caching keeps the ownership sound and adds exactly the statement |
| Statements.FreedHandleSound | src/mysql/Database.cpp:44-53 | freeing keeps the ownership sound for handles that are valid and for handles that no longer are |
| Ownership.StepKeeps | src/mysql/PreparedQuery.cpp:186-202 | every step of either thread keeps every statement accounted for: closed, or open with exactly one owner, or leaked |
| Ownership.HandlesOverRuns | src/mysql/StatementHandle.h:12-14 | in every reachable state a handle is valid if and only if it is cached, cached and freed statements are disjoint and open, and none was closed twice or used after it was closed |
| Ownership.EndLeavesNothing | src/mysql/Database.cpp:457-459 | once the loop has ended both sets are empty for good, no handle is valid, and only leaked statements are open |
| Ownership.AllClosedIff | src/mysql/PreparedQuery.cpp:195-201 | at the end every statement was closed exactly once if and only if no preparation failed while statements were cached |
| Ownership.NoStaleStatements | src/mysql/Database.cpp:437-441 | a query never holds a statement of an earlier connection, unless a ping reconnected while statements were cached |
| Ownership.PingKeepsCurrentIff | src/mysql/PingQuery.cpp:18-20 | a ping that reconnects leaves no statement of the old connection valid if and only if none was cached |
| Ownership.StaleAfterPing | src/mysql/PingQuery.cpp:18-20 | a run in which a query then uses a statement of the closed connection |
| Ownership.WorkerOrderIff | src/mysql/PreparedQuery.cpp:186-202 | in every reachable state the database thread can take exactly the steps that follow its last one; after the reconnect of a retry only the freeing of the cached statements |
| Ownership.LuaOrderIff | src/mysql/Database.cpp:44-53 | in every reachable state the Lua thread frees exactly a handle it has seen valid, and looks at no other before |
| Ownership.MisuseIff | src/mysql/Database.cpp:57-81 | a step misuses exactly those statements that it uses or closes and that are not open |
| Ownership.ConnectionCounts | src/mysql/Database.cpp:492-508 | the current connection is the number of reconnects so far |
| Ownership.FreedIsClosed | src/mysql/Database.cpp:44-81 | a handle seen valid is freed and no longer valid, its statement waits for the clean-up, and the next one closes it with everything freed before, and nothing else |
| Ownership.InvalidIsLeft | src/mysql/Database.cpp:44-45 | freeing a handle that is not valid does nothing |
| Connections.Connection.ConnectRun | src/mysql/Database.cpp:387-416 | a connection that cannot be made is closed again and its pointer is null, and only one that was made is announced as connected |
| Connections.Connection.AttemptReconnect | src/mysql/Database.cpp:492-508 | the old connection is replaced and closed if and only if the new one works; otherwise the new one is closed |
| Connections.Connection.CloseConnection | src/mysql/Database.cpp:417-424 | the published connection is closed and its pointer is null |
| Connections.WorkKeeps | src/mysql/Database.cpp:378-428 | every step of the database thread keeps the invariant of the handle and the mutexes |
| Connections.CallKeeps | src/mysql/Database.cpp:128-159 | so does every step of `escape` and `setCharacterSet` |
| Connections.NeverMisused | src/mysql/Database.cpp:128-159 | over every run no thread uses or closes a connection that is not open, and the pointer dangles exactly between the close and the null of a failed connect |
| Connections.AllClosedAtEnd | src/mysql/Database.cpp:388-424 | when the thread has ended every connection it opened has been closed, exactly once |
| Connections.StableUnderMutex | src/mysql/Database.cpp:492-508 | while the Lua thread holds the connect mutex, or the query mutex of a connected database, no step of the other thread changes the handle, which is null or open |
| Connections.QueryMutexUnstableIff | src/mysql/Database.cpp:388-407 | the query mutex alone leaves exactly two steps that change the handle, both before the database is connected: publishing the first one, and taking a failed one back |
| Connections.UnstableBeforeConnected | src/mysql/Database.cpp:398-407 | a run in which a thread holding the query mutex knows the connection attempt to be over, the pointer still names a closed connection, and then becomes null |
| Connections.NoDeadlock | src/mysql/Database.cpp:417-424 | whenever the database thread waits for one of the two mutexes, it is free or the Lua thread holding it can go on |
| Connections.WorkerOrderIff | src/mysql/Database.cpp:378-428 | in every reachable state the database thread can take exactly the steps that follow its last one, those that lock only while the mutex is free: connecting, turns with one reconnect at a time, and at the end both mutexes, the close, their release |
| Connections.CallStages | src/mysql/Database.cpp:128-159 | `escape` and `setCharacterSet`, once they have their mutex, go on to the published open connection exactly while there is one, and give the mutex back after the test or after the use |
| Connections.CallBegins | src/mysql/Database.cpp:128-150 | a call gets its mutex, the connect mutex for `escape` and the query mutex for `setCharacterSet`, exactly when it is free |
| Connections.MisuseIff | src/mysql/Database.cpp:492-506 | the steps of the database thread that use or close a connection are misuse exactly when that is not open |
| Connections.LuaMisuseIff | src/mysql/Database.cpp:132-154 | so is the use in `escape` and `setCharacterSet` |
| Results.QueryData.ClearResultData | src/mysql/Query.cpp:34-39 | all three queues are empty, nothing else changes |
| Results.QueryData.EmplaceEmptyResultData | src/mysql/Query.cpp:41-46 | an empty set with zero counters is appended |
| Results.QueryData.StoreSets | src/mysql/Query.cpp:21-31 | the store loop appends every arriving set to the three queues |
| Results.QueryData.GetNextResults | src/mysql/Query.h:62-68 | the front is popped off all three queues, or nothing when one of them is empty |
| Results.StoredSets | src/mysql/Query.cpp:21-31 | the i-th arriving set ends at the same distance from the old end of each queue |
| Results.PoppedSuffix | src/mysql/Query.h:62-68 | reading k sets takes k off each queue, as long as none runs out |
| Results.ReadsServerOrder | src/mysql/Query.h:50-68 | on cleared data every accessor describes set k of the server after k reads, and `hasMoreResults` is true exactly as often as there are sets |
| Parameters.PreparedQuery.SetField | src/mysql/PreparedQuery.cpp:31-60 | the field goes to the last parameter set under its own index; index 0 is an error that changes nothing |
| Parameters.PreparedQuery.PutNewParameters | src/mysql/PreparedQuery.cpp:64-66 | an empty set is appended |
| Parameters.PreparedQuery.ClearParameters | src/mysql/PreparedQuery.cpp:26-29 | one empty set is left |
| Parameters.PreparedQuery.BuildQueryData | src/mysql/PreparedQuery.cpp:243-251 | all sets are captured, and the loop leaves the last one |
| Parameters.Run | src/mysql/PreparedQuery.cpp:26-66 | over every history there is always a parameter set, and every field is stored under its own index |
| Parameters.SetsAreHistory | src/mysql/PreparedQuery.cpp:26-66 | the number of sets and the value at each index of each set are what the history of calls says |
| Parameters.CapturesAreStable | src/mysql/PreparedQuery.cpp:243-251 | no later operation changes what a start captured |
| Parameters.StartCapturesHistory | src/mysql/PreparedQuery.cpp:243-251 | a start captures what the history says, its data keeps that whatever follows, and the next start begins from the last captured set alone |
| PreparedExecution.GenerateMysqlBinds | src/mysql/PreparedQuery.cpp:130-176 | the loop over the bind array in place, with the unsigned index and the early error exit |
| PreparedExecution.BindsAreParameters | src/mysql/PreparedQuery.cpp:130-176 | the invalid-index error cannot happen for fields stored under their own index, and the server is sent each parameter's value, null where none is set, whatever the array held before |
| PreparedExecution.FilledOkIff | src/mysql/PreparedQuery.cpp:142-147 | the bind loop finds an invalid index if and only if some field points behind the statement's parameters |
| PreparedExecution.InvalidSetStops | src/mysql/PreparedQuery.cpp:142-147 | such a parameter set ends the execution with an error that is not retried, nothing sent and nothing stored |
| PreparedExecution.StoreReply | src/mysql/PreparedQuery.cpp:210-231 | one execution's sets are stored, counters before rows |
| PreparedExecution.ExecuteSet | src/mysql/PreparedQuery.cpp:206-231 | one parameter set: bound into the reused array, executed, stored |
| PreparedExecution.ExecuteSets | src/mysql/PreparedQuery.cpp:203-232 | the loop over the captured sets stops at the first error |
| PreparedExecution.SetsAreOneStatement | src/mysql/PreparedQuery.cpp:203-232 | the result is that of a single statement returning all sets in order up to the first error, and each execution is sent its own set's values only |
| PreparedExecution.PreparedReadsServerOrder | src/mysql/PreparedQuery.cpp:206-232 | without an error, reading gives the result sets of all parameter sets in order |
| PreparedExecution.AlignedIff | src/mysql/PreparedQuery.cpp:210-230 | the three queues stay parallel if and only if no set's rows failed to arrive after its counters did |
| DataCache.Script.FreeDataReference | src/lua/LuaQuery.cpp:205-210 | the query's reference, if any, is freed once and forgotten |
| DataCache.Script.CreateDataReference | src/lua/LuaQuery.cpp:53-77 | an existing reference is kept; otherwise the row loop builds the table of the current result set |
| DataCache.Script.RunSuccess | src/lua/LuaIQuery.cpp:137-160 | the callbacks of a single query get a table built from the delivered data, not a cached one |
| DataCache.Script.RunTransactionSuccess | src/lua/LuaTransaction.cpp:124-143 | the loop that points members to their data and collects their tables |
| DataCache.Script.GetData | src/lua/LuaQuery.cpp:142-152 | nil before callback data and after an error, otherwise the cached or a new table |
| DataCache.Script.GetNextResults | src/lua/LuaQuery.cpp:161-167 | the cache is freed even when there is no next result |
| DataCache.RenewedKeeps | src/lua/LuaTransaction.cpp:134-141 | a member's table decodes its own data, and no other query's cache changes |
| DataCache.TransactionTables | src/lua/LuaTransaction.cpp:132-143 | the i-th table of a successful transaction decodes member i, even when one query was added several times |
| DataCache.GetDataShows | src/lua/LuaQuery.cpp:53-77 | the table `getData` builds shows the first result set left, row i in place i under the query's option, and the next call returns the same table |
| DataCache.CreatedWithout | src/lua/LuaQuery.cpp:53-58 | a table that is cached is kept, and without callback data the table is empty |
| DataCache.TransactionShows | src/lua/LuaTransaction.cpp:132-143 | the i-th table of a successful transaction shows the first result set of member i, row by row |
| DataCache.TransactionCaches | src/lua/LuaTransaction.cpp:132-143 | a successful transaction leaves each query at the data of its last member, with its table cached |
| DataCache.CallbackFrees | src/lua/LuaTransaction.cpp:155-158 | after the callback no query of the delivery has a table cached, and every other query keeps its own |
| DataCache.FailsShowsNil | src/lua/LuaIQuery.cpp:84-97 | after an error `getData` is nil and no cache is touched |
| DataCache.GetNextMoves | src/lua/LuaQuery.cpp:161-167 | `getNextResults` forgets the cached table and takes the first set off all three queues if there is one, and changes nothing else |
| DataCache.ReadsEverySet | src/lua/LuaQuery.cpp:112-167 | in the callback of a successful query, after k calls of `getNextResults`, `getData` shows set k of what the server sent, row by row, and an empty table behind the last |
| DataCache.StepKeeps | src/lua/LuaQuery.cpp:112-167 | every calm step keeps every visible cached table equal to a fresh decoding |
| DataCache.ValidStep | src/lua/LuaQuery.cpp:205-210 | every step, calm or not, keeps every live reference with the one query that caches it, and every table as it was made |
| DataCache.GetDataFreshIff | src/lua/LuaQuery.cpp:142-152 | after every run, calm or not, `getData` is nil exactly before callback data and after an error, and otherwise a fresh decoding if and only if nothing was cached or the cached table was made from the current rows under the current option |
| DataCache.GetDataIsFresh | src/lua/LuaQuery.cpp:142-152 | in every calm run `getData` is a fresh decoding of the current result set; that data nobody waited for in vain is not written to once the Lua thread has it is `Conservation.TakenBackIsNotWritten` |
| DataCache.StoppedIsStale | src/lua/LuaTransaction.cpp:98-122 | after a failed or aborted transaction of any members, a query that had a table cached, and whose last member data has no error, shows that old table; it is right if and only if it was made from the rows that are current now, under the same option, which for a table that was right and visible means that the old and the new result set have the same rows |
| DataCache.LateWriteIsStale | src/mysql/Database.cpp:317-324 | data executed after its failed wait was delivered shows the table cached before; it is right if and only if that was made from the rows now stored, under the same option |
| DataCache.OptionChangeIsStale | src/lua/LuaQuery.cpp:10-12 | setting a query's field option either way while a table is cached shows that table; it is right if and only if it was made under that option from the current rows, or there are no rows; changing the option of a right one leaves it right if and only if there are no rows |
| DataCache.CachedFreshIff | src/lua/LuaQuery.cpp:53-55 | what `getData` returns from a cache is a fresh decoding if and only if the table was made from the current rows, under the same option unless there are none |
| DataCache.StoppedRun | src/lua/LuaTransaction.cpp:111-122 | a run in which a completed member of a failed transaction shows the result of an earlier execution |
| DataCache.LateWriteRun | src/mysql/Database.cpp:317-324 | a run in which data executed after its failed wait shows the result of an earlier execution |
| DataCache.OptionChangeRun | src/lua/LuaQuery.cpp:10-12 | a run in which rows stay keyed by name after numeric fields were asked for |
| BitFields.Decode | src/lua/LuaQuery.cpp:26-32 | the shift-and-or loop, with 64-bit shifts, yields the big-endian value of the first at most eight bytes, below 256 to their number |
| BitFields.OrIsSum | src/lua/LuaQuery.cpp:31 | or-ing a byte into shifted bits adds it |
| BitFields.Horner | src/lua/LuaQuery.cpp:30-32 | appending a byte multiplies the value by 256 and adds the byte |
| BitFields.EncodedDecodes | src/lua/LuaQuery.cpp:26-32 | decoding inverts big-endian encoding |
| BitFields.DecodedEncodes | src/lua/LuaQuery.cpp:26-32 | encoding inverts decoding, so that no two byte strings of one length share a value |

## Left out

- BlockingQueues.BlockingQueue.Take: the wait on the condition variable is not in the method, which requires an element; in `Lifecycle` the take step is possible only when there is one.
- Databases.Database.WaitForQuery: ends where the thread blocks; the wake-up is a step of `Lifecycle`.
- Databases.IQuery.Wait: ends where the thread blocks, like `WaitForQuery`.
- Databases.IQuery.Abort: nothing interleaves with the loop in the method; `Lifecycle` lets the database thread take entries between two removals.
- Databases.Database.RunToPill: the database thread alone; `Drain` is about all interleavings.
- Delivery.CallbacksAtMostOnce: needs that no callback delivers its own data again; `Delivery.SecondCallbackIff` has the exact condition over runs, and `Corners.WaitInOwnCallback` a run where it fails.
- Delivery.SecondCallbackIff: the model decides on the success callback of a query when its delivery begins. In the source the `onData` calls for its rows come first (`src/lua/LuaQuery.cpp:112-125`): a failed wait inside one of them delivers the error and frees the references, so that no success callback follows, where the model counts two callbacks.
- Orders.DeliveredInStartOrder: needs that no wait fails, because a failed wait delivers a copy ahead of the queue; the two conditions on swaps and loops are exact, and `Corners.SwapLosesFront` and `Corners.NestedWaitReturnsEarly` have runs that break them.
- Drain.DisconnectDrains: needs swaps to stay ahead of the first pill, which `Drain.SwapKeepsIff` shows to be exact for one swap; `Corners.SwapLosesFront` has a run where it fails.
- DataCache.GetDataIsFresh: needs calm steps; the lemmas and runs after it give what happens otherwise.
- BitFields.Decode: the conversion of the 64-bit value to a double, which rounds above 2^53, is not modelled.
- Query data objects, query objects and handles are records found by identity in maps or sequences instead of heap objects; aliasing is aliasing of identities. The data objects of a transaction's members are heap objects.
- `ping` takes its own data out of the finished list again; the life cycle does not have this step.
- The connection callbacks and `onDisconnected` in `think`, and what happens when Lua destroys a database or query object, apart from freed statement handles.
- Statuses of transaction members during the life cycle; `Members` has them after the run.
- Lua tables, metatables and the stack, except references as numbers and callbacks as events; the row loop of `onData`.
- Decoding of other column types than BIT, column names, and the pooling of references by Lua.
- Errors that are not MySQL errors, such as running out of memory, inside `runQuery`.
- libmysqlclient itself: TLS, timeouts, character sets, escaping, and how long a call blocks. The error numbers of the retriable errors come from its headers, which are not part of the repository.
- A parameter count close to 2^32, for which the unsigned loop counter of the bind loop would wrap.
- `lua/connectionpool.lua`, `lua/mysqloolib.lua`, `lua/tmysql4.lua` and the build scripts: thin wrappers and configuration.
