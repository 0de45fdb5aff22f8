# A verified model of the judging dispatcher

The dispatcher takes judging jobs from an AMQP queue, hands them to a pool of worker threads that
compile and run the submitted program, and publishes the results. Workers finish in any order; the
main thread publishes and acks strictly in the order of delivery, because every ack is sent with
`multiple = 1` (section 1.8.3.13 of the AMQP 0-9-1 reference) and so covers every earlier message.
This project models that pipeline, the queue and the pool it stands on, the judging loop, the
split-and-merge of test-point mode, and the pooled connection handles.

`dafny verify dfyconfig.toml` checks everything.

## How it is laid out

| file | what it holds |
|---|---|
| `BlockQueue.dfy`, `BlockQueueRuns.dfy` | the bounded queue: its half-calls, the class, and any number of threads interleaving on it |
| `TaskRunner.dfy` | the record a runner carries and the compile/run flags |
| `Ledger.dfy` | what only the main thread touches: free runners, ack FIFO, uuid index, published results, acks |
| `Receiving.dfy` | the receive loop: which messages are accepted, with which runners |
| `Serving.dfy` | serving a batch of results, and that its order makes no difference |
| `Dispatcher.dfy` | the ledger as objects: ack nodes shared by the FIFO and the uuid map, with the methods that change them |
| `Protocol.dfy` | the whole dispatcher as a step relation: every atomic action of every thread |
| `ProtocolInvariant.dfy`, `ProtocolSteps.dfy` | the invariant, and that every step keeps it |
| `ProtocolSafety.dfy`, `ProtocolProgress.dfy` | what follows for every courteous run |
| `ProtocolCalls.dfy` | the main thread's calls as runs of its steps |
| `ProtocolRuns.dfy` | building runs from any state of the invariant, for the exact bounds |
| `ProtocolPipe.dfy` | the wake-up pipe, and exactly when it drops a byte |
| `ProtocolRejections.dfy` | messages with a negative test count: runners, acks, and the end of judging |
| `ProtocolDuplicates.dfy`, `ProtocolLeaks.dfy` | messages whose uuid is in flight, and their results, in any run whatever |
| `ProtocolMixUp.dfy` | a run that publishes one submission's result as another's |
| `WorkerPool.dfy` | core affinity and shutdown |
| `Judging.dfy`, `SplitMerge.dfy` | the judging loop, and test-point mode against it |
| `Connections.dfy` | pooled connections and their handles |
| `Sums.dfy` | sums over sequences, used for counting |

## How the pieces meet

The methods of class `Dispatcher` keep a ghost `Ledger` that describes the shared nodes, and each
method's new ledger is a function of the old one (`AddToMap`, `Park`, `Drain`, `SendAll`,
`ConsumeAll`, `TakeFree`, `ReturnFree`). They ask nothing of what is delivered but that tags ascend.
The step relation changes its ledger by those same functions, one atomic action at a time. With no
worker in between, its publishing steps together are one `Drain` (`PublishingStepsDrain`), the steps
of one `send_msg` call compute `SendAll` (`SendingStepsSendAll`), and those of one `consume_msg` call
`ConsumeAll` (`ReceivingStepsConsumeAll`), whatever the uuids.

A run is any sequence of enabled steps: each worker's wait, pop, finish-and-push, post and pipe write
are separate steps, and so are the main thread's reads, waits, pops, pushes, posts and publications.
What a compilation or a run of the user's program gives is chosen afresh at every `Finish` step. Runs
that the outside behaves well in are called courteous: the broker keeps to the prefetch window
(section 1.8.3.1 of the AMQP 0-9-1 reference), and a message is not accepted while another with the
same uuid is in flight. Both are conditions on what is delivered, never on the threads.

The last seven fields of a protocol state (`accepted`, `rejected`, `lost`, `lastTag`, `refused`,
`drops`, `given`) are history that no step reads, except that a new tag is larger than `lastTag`.
`given` notes, when a worker finishes, what it found, under the tag of the message whose uuid its job
carries; what is published for a message is proved to be made of exactly that.

## What the proofs found about the code

- A message whose uuid is already in flight is never released, because inserting into the uuid map
  keeps the old entry; it also holds back everything behind it. `ShadowedIffDuplicate` gives the exact
  condition, `DuplicateIsNeverReleased` the consequence for every run, `DuplicateCanHappen` a run
  under every configuration with a window of two or more, and with a window of one none can come
  within it (`DuplicateCanComeIff`). The worst of it: whichever result under the uuid is handled last
  before the publication is published and acked as the first message's (`LastHandledIsPublished`), so
  with two threads one submission's verdict can be published as another's (`SecondIsPublishedAsFirst`). The second result under that uuid ends the
  process when the first message has been published (`ResultAfterPublicationExits`); before that it
  overwrites the first result, whose runner is then lost for good (`ResultBeforePublicationLeaks`).
- A negative test count makes the receive loop return with the runner and the message in hand. The
  runner is lost for good: as many are lost as messages were rejected (`OneLostForEachRejected`), so
  the free queue never again reports that it is full. The message is acked unjudged exactly when a
  later one is published (`RejectedIsCoveredIffLaterPublished`), and some run does that exactly when
  the window is two or more (`RejectedCanBeCoveredIff`). Rejected messages that no ack has covered
  fill the broker's window: in whatever state, another message can ever be accepted exactly when those
  rejected after the last accepted one leave room in it and a runner is left (`CanGoOnIff`), and as
  many rejections in a row as the window is wide end all judging (`JudgingCanEnd`).
- The queue admits a push at size `max`, so it can hold `max + 1` items, and `size()` reports 0 then.
- Shutdown finishes in every run exactly when the pool's queue is unbounded or its bound plus one is
  at least the number of workers (`ShutsDownIffRoomForAll`). The dispatcher's bound is a multiple of
  the number of workers, so it always does.
- With window P and T threads the pipe never has to hold more than P + T bytes, however many runners
  there are, and some run does fill it so far. A wake-up byte is dropped in some run exactly when P is
  two or more and the pipe has fewer than P + T places (`NeverDropsIffWideEnough`); even then no
  queued result is left with nothing announcing it (`NoWakeupIsLost`).
- Splitting a task in test-point mode finishes exactly when enough runners are free, which 2T - 2
  always are (`Split`). Otherwise it waits for a runner that only the waiting thread could free.
- A time or memory limit of -1 ("no limit") makes every test fail: the checker runs under three times
  the limit, and -3 is no longer read as "no limit" (`PassedExactlyWhen`). A program that ends by
  SIGHUP counts as complete, whatever it used, and a program's own exit code is ignored.
- A program killed for its memory is held against the limit in the wrong unit: its peak in GiB is
  compared with the limit in MiB, so it is reported as crashed unless it is over by a thousandfold
  (`OverMemoryExactlyWhen`, `CrashedExactlyWhen`). On a normal end the unit is right.
- In task mode a result never asks for a further run, so the dispatcher's branch that appends a
  compiled task again is unreachable there (`TaskModeSettlesInOnePass`, `LookupsNeverFail`).
- Move-assigning a connection handle swaps: the connection it held goes home only when the other
  handle is emptied or destroyed (`MovesAreHarmless`, `ReleasedMeansHome`).

## Model

| member | source | states |
|---|---|---|
| `ProtocolSafety.StepRefinesJudge` | dispatcher/dispatch_task.cpp:425-482 | every step of every thread is, to a judge that takes one message after the other, either taking a message, serving the oldest one with what its own worker found, or nothing |
| `ProtocolSafety.EveryRunJudgesInOrder` | dispatcher/dispatch_task.cpp:449-482 | in every state of every courteous run the published results are those a sequential judge gives for a prefix of the accepted messages, each once and in order; each keeps its message's uuid, pid, uid and test count and reports exactly what that message's own worker found in the one step in which it finished; acks are that prefix's tags and the FIFO is the rest |
| `ProtocolSafety.NotedByItsWorker` | dispatcher/task_runner.cpp:221-244 | what is noted for a message comes from exactly one step of the run, a worker finishing that message's fresh record |
| `ProtocolSteps.FitFinish` | dispatcher/task_runner.cpp:17-59 | a worker's finishing gives its own message its result and leaves every other job, node and published result with the one it had |
| `ProtocolSafety.AcksNeverCoverUnjudged` | dispatcher/dispatch_task.cpp:196-204 | a delivered message that an ack covers has been published or was rejected, acks ascend strictly, and published messages are covered |
| `ProtocolSafety.RunnersHaveOneOwner` | dispatcher/dispatch_task.cpp:425-568 | at every moment each of the N runners is in exactly one of free queue, worker queue, a worker, result queue, an ack node, the main thread's hands, or lost |
| `ProtocolSafety.OnlyRejectionLosesRunners` | dispatcher/dispatch_task.cpp:556-558 | the lost and rejected collections grow exactly at the negative-test-count return, and by exactly that runner and that tag |
| `ProtocolSafety.LookupsNeverFail` | dispatcher/dispatch_task.cpp:244-447 | the uuid map is the index of the ack FIFO; a result in hand is found there; no thread past a wait meets an empty queue; no push was ever refused; nobody has left the loop |
| `ProtocolSafety.EveryStepFindsRoom` | dispatcher/dispatch_task.cpp:529-568 | in every step of every courteous run the queue pushed to is no fuller than its bound and the queue popped past a wait is not empty |
| `ProtocolSafety.PublishingStepsDrain` | dispatcher/dispatch_task.cpp:449-482 | the atomic publishing steps after a parked result are, together, one drain of the front |
| `ProtocolCalls.SendingStepsSendAll` | dispatcher/dispatch_task.cpp:168-194 | with no worker in between, the atomic steps of one call of `send_msg` compute `SendAll` |
| `ProtocolCalls.ReceivingStepsConsumeAll` | dispatcher/dispatch_task.cpp:529-568 | with no worker in between, the atomic steps of one call of `consume_msg` compute `ConsumeAll` |
| `ProtocolPipe.PipeHoldsAtMostWindowAndThreads` | dispatcher/task_runner.cpp:240-243 | bytes in the pipe plus bytes about to be written never exceed the prefetch window plus the threads |
| `ProtocolPipe.PipeFillsUp` | dispatcher/dispatch_task.cpp:90-108 | with a window of two or more that bound is reached: so many bytes are written with none read |
| `ProtocolPipe.WideEnoughNeverDrops` | dispatcher/dispatch_task.cpp:149-157 | with a window of one, or a pipe with that many places, no non-blocking write is ever dropped |
| `ProtocolPipe.NeverDropsIffWideEnough` | dispatcher/dispatch_task.cpp:149-157 | and in no other configuration: otherwise some courteous run drops a byte |
| `ProtocolPipe.NoWakeupIsLost` | dispatcher/dispatch_task.cpp:97-104 | with such a pipe queued results never outnumber bytes in it, bytes owed and the byte in service; with any pipe a queued result has something announcing it |
| `ProtocolSafety.FullFreeQueueMeansDrained` | dispatcher/dispatch_task.cpp:508-516 | the free queue is full exactly when no runner is lost or in use, and then FIFO and index are empty and everything accepted is published and acked |
| `ProtocolSafety.FiledIsIndexOf` | dispatcher/dispatch_task.cpp:263-268 | a ledger whose nodes are filed has as its index exactly the uuid-to-tag map of its FIFO |
| `ProtocolSafety.AllIdleMeansFifoEmpty` | dispatcher/dispatch_task.cpp:508-516 | with every runner idle no message can still be awaiting its ack |
| `ProtocolSteps.CourteousStepsAreRegular` | dispatcher/dispatch_task.cpp:529-568 | in the invariant, a courteous step finds room in every queue it pushes to, pops only non-empty queues, and finds every entry it looks up |
| `ProtocolSteps.InvStep` | dispatcher/dispatch_task.cpp:90-568 | every courteous step of every thread keeps the invariant |
| `ProtocolSteps.InvInit` | dispatcher/dispatch_task.cpp:128-161 | the state the constructor leaves satisfies the invariant |
| `ProtocolSteps.FifoFitsWindow` | dispatcher/dispatch_task.cpp:131-133 | the ack FIFO never outgrows the prefetch window, so its push is never refused |
| `ProtocolProgress.InternalStepsLeaveLess` | dispatcher/dispatch_task.cpp:90-194 | a measure falls on every step but the start of a turn to the socket and a message's arrival |
| `ProtocolProgress.StepsLeaveLess` | dispatcher/dispatch_task.cpp:90-194 | the work left falls on every step that brings no message, but for the steps of a turn to the socket in vain, on which it never rises |
| `ProtocolProgress.InternalRunsEnd` | dispatcher/dispatch_task.cpp:90-194 | without a new turn to the socket every continuation is bounded |
| `ProtocolProgress.NoMessageIsStuck` | dispatcher/dispatch_task.cpp:168-194 | while an accepted message is unpublished, some thread can take a step |
| `ProtocolProgress.EveryRunComesToRestDrained` | dispatcher/task_runner.cpp:221-244 | without new messages every continuation, turns to the socket in vain included, has no more other steps than the work left; where it polls with nothing to do it has published and acked everything accepted and has every runner free or lost |
| `ProtocolDuplicates.ShadowedIffDuplicate` | dispatcher/dispatch_task.cpp:263-268 | a message just accepted is out of the index's reach exactly when its uuid was in flight |
| `ProtocolDuplicates.DuplicateIsNeverReleased` | dispatcher/dispatch_task.cpp:263-268 | in any run whatever, a message accepted under an in-flight uuid stays unfinished in the FIFO, and neither it nor a later one is ever acked |
| `ProtocolDuplicates.DuplicateCanHappen` | dispatcher/dispatch_task.cpp:529-568 | for every configuration with a window of two or more, a run within that window in which it happens |
| `ProtocolDuplicates.DuplicateCanComeIff` | dispatcher/dispatch_task.cpp:529-568 | after a courteous run a message whose uuid is in flight can come within the window exactly when the window is two or more |
| `ProtocolLeaks.AtMostOneHolder` | dispatcher/dispatch_task.cpp:425-568 | in any run whatever a runner has at most one holder, and one that has lost its holder never gets another |
| `ProtocolLeaks.ResultAfterPublicationExits` | dispatcher/dispatch_task.cpp:427-433 | a result handled after its uuid was published, and not accepted anew, ends the process |
| `ProtocolLeaks.ResultBeforePublicationLeaks` | dispatcher/dispatch_task.cpp:434-438 | one handled before that replaces the first result: the first one's runner is in no place ever after, and no other runner is touched |
| `ProtocolLeaks.LastHandledIsPublished` | dispatcher/dispatch_task.cpp:434-457 | the record published under a uuid is the one handled last before, and the ack is that of the message the index gives for the uuid |
| `ProtocolMixUp.SecondIsPublishedAsFirst` | dispatcher/dispatch_task.cpp:434-457 | with two threads and a window of two there is a run that publishes the second submission's result as the first's and acks the first |
| `ProtocolRejections.OneLostForEachRejected` | dispatcher/dispatch_task.cpp:556-558 | in any run as many runners are lost as messages were rejected |
| `ProtocolRejections.MessagesTieUpRunners` | dispatcher/dispatch_task.cpp:529-568 | free runners, messages awaiting their ack, the runner in hand and rejected messages always add up to N |
| `ProtocolRejections.RejectedIsCoveredIffLaterPublished` | dispatcher/dispatch_task.cpp:196-204 | a rejected message is never published, and is acked exactly when a message with a larger tag has been published |
| `ProtocolRejections.RejectedCanBeCoveredIff` | dispatcher/dispatch_task.cpp:556-558 | a courteous run that acks a message rejected unjudged exists exactly when the window is two or more |
| `ProtocolRejections.OutstandingAtRest` | dispatcher/dispatch_task.cpp:196-204 | with an empty FIFO the unacked messages are exactly the rejected ones that no later ack covers |
| `ProtocolRejections.ShutForEver` | dispatcher/dispatch_task.cpp:556-558 | once the messages rejected after the last accepted one fill the window, or rejections hold every runner, nothing is ever accepted again |
| `ProtocolRejections.EndedForEver` | dispatcher/dispatch_task.cpp:556-558 | and with an empty FIFO nothing is published or acked again either |
| `ProtocolRejections.CanGoOnIff` | dispatcher/dispatch_task.cpp:529-568 | from any state of the invariant a further message can ever be accepted exactly when neither is the case |
| `ProtocolRejections.JudgingCanEnd` | dispatcher/dispatch_task.cpp:556-558 | under every configuration, as many rejections as the window is wide lead to that end with nothing left to publish |
| `ProtocolRuns.OutstandingIs` | dispatcher/dispatch_task.cpp:196-204 | the delivered and unacked messages are those in the FIFO and the uncovered rejections, and are as many |
| `Ledgers.ParkHitsOneNode` | dispatcher/dispatch_task.cpp:434-438 | marking through the index changes exactly the node that carries the uuid |
| `Ledgers.AddKeepsFiled` | dispatcher/dispatch_task.cpp:263-268 | filing a message under a fresh uuid keeps index and FIFO in agreement |
| `Ledgers.PublishKeepsFiled` | dispatcher/dispatch_task.cpp:449-482 | a ready front is found in the index, and releasing it keeps the agreement |
| `Ledgers.AddKeepsOrderly` | dispatcher/dispatch_task.cpp:263-268 | filing a message with a new tag, whatever its uuid, keeps tags ascending and every finished node findable |
| `Ledgers.PublishKeepsOrderly` | dispatcher/dispatch_task.cpp:449-482 | a ready front is always found under its own tag, and releasing it keeps that order |
| `Ledgers.DrainReleasesTheReadyPrefix` | dispatcher/dispatch_task.cpp:449-482 | draining publishes, acks, erases and frees exactly the finished run at the front, in order, and nothing else |
| `Dispatchers.Dispatcher.constructor` | dispatcher/dispatch_task.cpp:128-161 | all runners in the free queue in order, an empty FIFO and map, the bounds given, nothing published |
| `Dispatchers.Dispatcher.AddToMap` | dispatcher/dispatch_task.cpp:263-268 | the new node goes to the FIFO if it fits and to the map if its uuid is not there yet, both sharing it |
| `Dispatchers.Dispatcher.PublishMsg` | dispatcher/dispatch_task.cpp:196-204 | the result is appended and the message's own tag acked |
| `Dispatchers.Dispatcher.ReleaseFront` | dispatcher/dispatch_task.cpp:453-476 | the front leaves FIFO and map together, its result is published, its tag acked, its runner freed |
| `Dispatchers.Dispatcher.TrySendResult` | dispatcher/dispatch_task.cpp:449-482 | the loop over shared nodes computes the drain of the ledger |
| `Dispatchers.Dispatcher.ParkTask` | dispatcher/dispatch_task.cpp:434-438 | writing to the node found through the map shows in the FIFO at that one node |
| `Dispatchers.Dispatcher.HandleTask` | dispatcher/dispatch_task.cpp:425-447 | fails exactly when the uuid is not filed, and otherwise parks the result and drains |
| `Dispatchers.Dispatcher.SendMsg` | dispatcher/dispatch_task.cpp:168-194 | the loop serves queued results as `SendAll` says: until none is left, the exit flag is up, one must go back to the workers, or one is not filed |
| `Serving.DrainFirst` | dispatcher/dispatch_task.cpp:425-482 | releasing what is ready before a result is parked, or only after, comes to the same |
| `Serving.SendAllEnds` | dispatcher/dispatch_task.cpp:168-194 | serving ends for want of results, at the first result when the exit flag is up, at the first compiled task, which goes back to the workers, or at the first uuid that is not filed; the rest stays queued and the results before are served |
| `Serving.SendAllIsParkAllThenDrain` | dispatcher/dispatch_task.cpp:168-194 | serving a batch of expected results consumes it and leaves what parking them all and draining once would leave |
| `Serving.ServingOrderDoesNotMatter` | dispatcher/dispatch_task.cpp:168-194 | any two orders of the same batch give the same publications, acks, free runners and waiting messages |
| `Dispatchers.Dispatcher.ConsumeMsg` | dispatcher/dispatch_task.cpp:529-568 | the loop over shared nodes and queues computes `ConsumeAll`, for any messages whose tags ascend |
| `Receiving.ConsumeAllInOrder` | dispatcher/dispatch_task.cpp:529-568 | while the queues have room the messages accepted are a prefix of those ready, filed and queued in order, each as a fresh record of its uuid, pid, uid and test count with the next free runner; it says why the loop stops and what that does to the free runners |
| `Receiving.ConsumeAllKeepsFiled` | dispatcher/dispatch_task.cpp:529-568 | under fresh uuids the loop keeps index and FIFO in agreement |
| `TaskRunners.TaskRunner.Compile` | dispatcher/task_runner.cpp:67-83 | sets both flags on success and replaces the record by the compile report on failure |
| `TaskRunners.TaskRunner.RunTask` | dispatcher/task_runner.cpp:17-59 | the step-by-step updates make of the record what one pass should: identity kept, a failed compilation reported with its text, a task not yet run reported with its run's result |
| `TaskRunners.InitialTaskIsFresh` | dispatcher/dispatch_task.cpp:552-566 | a message becomes a record of its uuid, pid, uid and test count with no flag up and no report |
| `TaskRunners.JudgedIsPass` | dispatcher/task_runner.cpp:17-59 | for any record, mode and outcome, which fields one pass changes and to what |
| `TaskRunners.OnePassGivesTheVerdict` | dispatcher/task_runner.cpp:67-135 | in task mode a fresh record ends with the compiler's own text, or compiled and run with the run's own result |
| `TaskRunners.TaskModeSettlesInOnePass` | dispatcher/task_runner.cpp:17-59 | in task mode a fresh record keeps its identity, is compiled exactly when it was run, and never asks for another pass |
| `TaskRunners.TestPointModeTakesTwoPasses` | dispatcher/task_runner.cpp:37-52 | in test-point mode the first pass asks for a run exactly when compiling worked, and the pass over a chunk settles it and keeps its place |
| `BlockQueues.BlockQueue.Emplace` | dispatcher/worker.h:206-226 | the item goes to the back exactly when the size is at most the bound, else nothing changes |
| `BlockQueues.BlockQueue.FrontAndPop` | dispatcher/worker.h:175-188 | past the wait, the oldest item is taken |
| `BlockQueues.BlockQueue.TryFrontAndPop` | dispatcher/worker.h:190-204 | nothing exactly when the queue is empty, else the oldest item |
| `BlockQueues.BlockQueue.Size` | dispatcher/worker.h:228-241 | the size, but 0 for an over-full queue |
| `BlockQueueRuns.InvStep` | dispatcher/worker.h:175-226 | each half-call of any thread keeps length equal to semaphore value plus owed pops plus owed posts |
| `BlockQueueRuns.QueueIsFifoInEveryRun` | dispatcher/worker.h:175-226 | in every interleaving of any number of threads that equation holds, what came out is a prefix of what went in, at most max + 1 items wait, and no pop meets an empty queue |
| `BlockQueueRuns.PushedIsOffered` | dispatcher/worker.h:206-226 | what went in is exactly what was offered while the queue was no fuller than its bound, and each pop hands out the oldest item |
| `BlockQueueRuns.BlockedMeansUnannounced` | dispatcher/worker.h:190-226 | a waiter blocks on a non-empty queue only while some thread is halfway through a call |
| `WorkerPools.SetBitsAreTheSetBits` | dispatcher/worker.h:378-390 | the list of set bits is ascending and holds exactly them |
| `WorkerPools.AssignCores` | dispatcher/worker.h:378-396 | thread a is bound to exactly the a-th smallest set bit, and to none once they run out |
| `WorkerPools.EnoughBitsMeansOwnCores` | dispatcher/worker.h:378-396 | with enough set bits the threads get different cores |
| `WorkerPools.SuppliedStep` | dispatcher/worker.h:419-433 | during shutdown queued items and appends to come never fall below the workers that still want one |
| `WorkerPools.EveryWorkerLeaves` | dispatcher/worker.h:419-473 | whatever the queue held, and although appends may be refused, every run of the shutdown is bounded and ends with every worker gone |
| `WorkerPools.EachLeavesWithOneItem` | dispatcher/worker.h:456-473 | whatever the bound, items there were and items appended are in the queue or were each taken by one worker that leaves or has left |
| `WorkerPools.OneIsStranded` | dispatcher/worker.h:419-433 | with a smaller bound there is a run that strands a worker for ever |
| `WorkerPools.ShutsDownIffRoomForAll` | dispatcher/worker.h:419-473 | idle workers are all gone after every run exactly when the bound is 0 or, plus one, at least their number |
| `Judging.UserRunLeavesTheVerdictToTheChecker` | judger/runner.cpp:142-154 | a user's run is never classified as accepted, wrong, or a compile error |
| `Judging.TimedOutExactlyWhen` | judger/runner.cpp:142-154 | a child is over time exactly when it returned, or was killed, after a limit that is on |
| `Judging.OverMemoryExactlyWhen` | judger/runner.cpp:142-154 | it is over memory exactly when, in time, it returned over the limit in MiB or was killed with a peak in GiB above that number |
| `Judging.CrashedExactlyWhen` | judger/runner.cpp:142-154 | it crashed exactly when a fault or a forbidden call ended it, or a kill within both limits |
| `Judging.CompleteExactlyWhen` | judger/runner.cpp:142-154 | it completed exactly when it returned within the limits or was hung up |
| `Judging.UnknownExactlyWhen` | judger/runner.cpp:142-154 | any other signal is an unknown end, and neither return nor signal a failure |
| `Judging.MeasuresOfAChild` | judger/runner.cpp:142-154 | whole milliseconds of CPU time for a program that ended by itself within the limits, wall time for any other; the peak in MiB, the exit code and the signal |
| `Judging.UserRunIsTheChilds` | judger/runner.cpp:142-154 | when waiting failed the run is unknown with nothing measured |
| `Judging.CheckerRunExactly` | judger/runner.cpp:452-473 | the checker accepts by returning 0 and rejects by another code or a hang-up, under limits that are not negative; its comment is kept |
| `Judging.PassedExactlyWhen` | judger/runner.cpp:452-473 | a test is passed exactly when neither limit is negative, the program ended by itself within both or by SIGHUP, and the checker returned 0 |
| `Judging.TimeOutExactlyWhen` | judger/runner.cpp:303-351 | the letter is 't', and the line the wall time, exactly for a time-out as the outside shows it |
| `Judging.MemoryOutExactlyWhen` | judger/runner.cpp:303-351 | likewise 'm' and the peak memory |
| `Judging.CrashExactlyWhen` | judger/runner.cpp:303-351 | likewise 'r' and the signal |
| `Judging.WrongExactlyWhen` | judger/runner.cpp:452-473 | likewise 'w' and the checker's comment, for a completed program that the checker rejected |
| `Judging.UnknownLetterExactlyWhen` | judger/runner.cpp:303-351 | likewise 'u', for a failed wait, an unknown end, or a failed checker |
| `Judging.LettersOfATest` | judger/runner.cpp:303-351 | no other letter occurs |
| `Judging.TrialShows` | judger/runner.cpp:194-234 | what the loop sees of a test, and when it counts as completed |
| `Judging.ResultGroup.Update` | judger/runner.cpp:313-350 | one letter and one line are appended, named state by state, and both maxima raised |
| `Judging.JudgeOne` | judger/runner.cpp:204-234 | one test's effect on the report, and a success exactly when the program completed and, of a problem, the checker accepted |
| `Judging.Start` | judger/runner.cpp:180-252 | the loop's result is the count error, the missing-file error, or the report on all tests with an error exactly when some program did not complete or, of a problem, some checker did not accept |
| `Judging.NoErrorIffAllSucceed` | judger/runner.cpp:180-252 | with all files there the return is none or a run error, and none exactly in that case, for the editor too |
| `Judging.EditorStatus` | judger/runner.cpp:204-234 | from the editor the status has the letters of the runs that did not complete, in order |
| `Judging.EditorLine` | judger/runner.cpp:231-234 | and each line is the output of a completed run or the detail of any other |
| `Judging.PeakOfRan` | judger/runner.cpp:303-318 | the recorded time and memory are the largest the user's runs reported, floored at 0 |
| `Judging.EntriesOfRan` | judger/runner.cpp:194-242 | a problem's status and lines have one entry per test, in order |
| `Judging.RanIsJudged` | judger/runner.cpp:180-252 | the loop's report has both properties, and its verdict is an error exactly when some test failed |
| `Judging.NoErrorIffAllAccepted` | judger/runner.cpp:180-252 | a problem ends without error exactly when every letter is 'a' |
| `SplitMerge.Split` | dispatcher/dispatch_task.cpp:394-409 | the further runners are popped from the free queue in order, one for each chunk but the first; it finishes exactly when enough are free, which 2T - 2 always are, and then the non-empty chunks, at most 2T - 1, cover the tests in order |
| `SplitMerge.StepIsAShare` | dispatcher/dispatch_task.cpp:395-396 | a chunk has the T-th part of the tests, rounded down, but at least one |
| `SplitMerge.ChunksAreEnough` | dispatcher/dispatch_task.cpp:394-397 | with at least T tests there is a chunk for every thread, with fewer one for every test |
| `SplitMerge.ChunksAreFew` | dispatcher/dispatch_task.cpp:395-397 | the tests never need more than 2T - 1 chunks of that size |
| `SplitMerge.ChunksAreDisjoint` | dispatcher/dispatch_task.cpp:397-404 | no test is in two chunks |
| `SplitMerge.ResultEntry.constructor` | dispatcher/dispatch_task.cpp:248-262 | the message's identity, a blank letter and line per test, both flags up, nothing finished |
| `SplitMerge.ResultEntry.Merge` | dispatcher/dispatch_task.cpp:206-242 | the copying loop overwrites exactly the chunk's tests, and tells whether the entry is complete; a failed compilation replaces it |
| `SplitMerge.AllNamedIffLong` | dispatcher/dispatch_task.cpp:206-242 | arrivals without repetition are all the chunks exactly when there are as many |
| `SplitMerge.CompletesExactlyOnTheLast` | dispatcher/dispatch_task.cpp:228-229 | after any chunks in any order, the next one completes the entry exactly when it is the last |
| `SplitMerge.MergedInAnyOrder` | dispatcher/dispatch_task.cpp:206-242 | for every order of arrival the merged letters and lines are those of the whole and the flag is the conjunction of the chunks' flags |
| `SplitMerge.SplitJudgeMergeIsSequential` | dispatcher/dispatch_task.cpp:206-242 | splitting, judging the chunks and merging them in any order gives the status, lines and verdict of judging all tests in sequence |
| `Connections.ConnectionPool.constructor` | dispatcher/connection_pool.h:78-90 | every connection is in the pool |
| `Connections.ConnectionPool.PopConn` | dispatcher/connection_pool.h:105-121 | the new handle holds the oldest free connection and names this pool |
| `Connections.Connection.Move` | dispatcher/connection_pool.h:142-147 | everything is taken over and the source is left empty |
| `Connections.Connection.Assign` | dispatcher/connection_pool.h:155-160 | the two handles trade places, also when they are the same |
| `Connections.Connection.Emplace` | dispatcher/connection_pool.h:180-189 | a held connection goes to the pool the handle names and the handle is emptied; an empty one changes nothing |
| `Connections.ActKeepsPlaces` | dispatcher/connection_pool.h:117-197 | no operation on handles changes how often a connection is in, or will return to, a pool |
| `Connections.ActHasEffect` | dispatcher/connection_pool.h:117-197 | in every reachable world each operation does to the handles and pools involved what the class contracts say and nothing to the others, and no connection is refused by its pool |
| `Connections.EveryConnectionHasOnePlace` | dispatcher/connection_pool.h:117-197 | after any sequence of operations over several pools each connection is in its pool or held by one live handle that names that pool |
| `Connections.ReleasedMeansHome` | dispatcher/connection_pool.h:149-189 | once no live handle holds anything, every pool has exactly its own connections back |
| `Connections.MovesAreHarmless` | dispatcher/connection_pool.h:142-197 | returning twice, returning a moved-from handle, assigning to oneself and swapping twice change nothing more |

## Left out

- RabbitMQ, Redis, epoll, libcgroup, seccomp: library and network calls; publishing and acking are appends to logs, receiving is the next delivery with a larger tag or nothing, and the test count looked up for a message is part of the delivery.
- `run_io` and the workers' `run` and `start`: only as steps of the protocol, not as methods.
- Process control: fork, exec, wait, clocks, resource limits and redirection; a test is given by what waiting for the program and for the checker returned.
- Exits of the process and JSON parse errors: only the exit for a missing envelope is modelled, as a phase that is then shown unreachable.
- `block_queue::clear`, `free_pointer` and `destory_all`: unlocked teardown.
- `block_list`: repeats `block_queue`.
- `RabbitmqClient`, `hi_redis_helper`, `sync_file`, `serializer`, `limiter`: plumbing and field copying.
- Test-point mode end to end: the source declares it unfinished, overwrites the chunk's test count and reads path keys nobody sets, so splitting, judging and merging are composed over chunk results that carry their own start and count. A task of no tests gets no chunk at all, so its runner is given to nobody.
- Dispatchers.Dispatcher.ConsumeMsg: the messages ready are given as a list with ascending tags, as a broker numbers them.
- Dispatchers.Dispatcher.SendMsg: the exit flag is given for the whole call, since the thread that raises it is the one that serves; `append_task_run` is its task-mode branch.
- TaskRunners.TaskRunner.RunTask: the serializer and cgroup errors, after which the process exits, are left out.
- ProtocolLeaks.ResultBeforePublicationLeaks: a third message under the same uuid, accepted after the first was published, can take the second result into its own node; that case is not described.
- Dispatchers.Dispatcher.HandleTask: a runner is its number and the record it carries, so aliasing of runner objects is not captured; that each number has one owner is proved on the step relation.
- BlockQueues.BlockQueue.FrontAndPop: the class speaks of calls made while no other is in progress, so blocking is a precondition; interleaved half-calls are the step relations.
- WorkerPools.AssignCores: the core mask is a sequence of bits, so the shift width of `int` is not modelled.
- Judging.Start: whether a test's input exists, what running the program and the checker gave, and the program's output are functions of the test's number; formatted lines keep the number shown instead of its text; the editor's extra `output` key is not modelled.
- Judging.PassedExactlyWhen: the signal number that is left unset for a program that exited is modelled as absent, and tripling a limit does not wrap around.
- The `cid` field and thread ids of a record: copied and not used by the protocol.
- Shared flags and the semaphores are sequentially consistent, waits are not interrupted by signals.
