# Verified model of thread_system

This project models the algorithms at the core of `thread_system`, a C++20 thread-pool
library, and proves what they promise. `dafny verify dfyconfig.toml` checks everything.

Concurrent code is a state machine whose steps are single atomic accesses or single locked
sections; a run is a sequence of states and actions, and theorems hold in every state of
every run, for any number of threads. Code that changes objects in place under one lock, or
that is used sequentially, is a class whose methods are proved against a specification
function, about which the properties are then proved. Where the code does not meet a natural
expectation, the exact condition under which it does is proved, in both directions.

| files | component |
|---|---|
| `LockFreeQueue*.dfy` | Michael-Scott job queue with hazard pointers and a node pool: invariant, FIFO refinement, answers of calls, reclamation and its memory bound, waiting, step bounds and lock-freedom |
| `Orphans*.dfy` | the global list of orphaned retirements |
| `Dag*.dfy` | the DAG scheduler: graph searches, edits, runs, failures, progress, the scheduler object |
| `Cancellation*.dfy` | cancellation tokens, links and callbacks |
| `JobQueue.dfy`, `Adaptive*.dfy` | the mutex queue and the adaptive queue |
| `TokenBucket*.dfy` | the rate limiter under interleaving, and a lone poller of it |
| `SlidingWindow.dfy`, `LatencyHistogram.dfy` | the metrics |
| `Base64.dfy`, `Base64Codec.dfy` | the codec of section 4 of RFC 4648 |
| `WorkAffinity.dfy` | the triangular affinity matrix |
| `MapSums.dfy`, `Wrappers.dfy` | sums over maps, optional values |

What the code does that its documentation or naming does not say, with the exact condition
proved for each:

- `add_job` with cycle detection accepts a job that lists itself as a dependency unless some
  job already waits for it (`EditsStayAcyclicIff`).
- Under the fallback policy a successful fallback does not promote dependents, so a run over
  a sound graph can stop with pending jobs exactly when a job with a fallback has a dependent
  (`CompletesIffPromotes`).
- `enqueue_batch` subtracts unsigned sizes: after `set_max_size` went below the current size
  it accepts batches beyond the bound (`BatchKeepsBoundIff`, `LoweredBoundIsIgnored`).
- A mode switch ignores accuracy guards: a held guard means the mutex mode exactly when nobody
  switches to the lock-free mode meanwhile (`GuardedIff`), and the mode is restored exactly
  under a condition on the guard released last and the last switch (`RestoredIff`). Guard calls
  whose accesses interleave can leave a guard without effect (`RaceDefeatsGuard`): all guards are
  effective exactly when none is constructed without migrating in lock-free mode and nothing
  leaves the mutex mode while one is held (`AccurateIff`).
- While a migration is under way a job can overtake an older one (`Overtakes`); the two queues
  act as one FIFO exactly when no step jumps the line (`OneFifoIff`).
- A migration loses jobs exactly when it puts them into a stopped mutex queue or a lock-free
  enqueue answers busy (`LosesIff`).
- A dequeue can wait for the lock of the retired list and may run a collection itself, exactly
  as far as `WaitsIff` and `CallBound` say.
- A caller that polls the token bucket faster than one scaled token per call is never served
  (`PollerServedIff`).
- `percentile` for zero and below answers from bucket zero: near the minimum exactly when a zero
  was recorded (`RankZeroNearMinIff`).
- The sliding window agrees with the event log exactly when the buckets per second divide
  1000 (`ExactIff`).
- Base64 decoding accepts texts whose spare bits are not zero; encoding gives such a text back
  exactly when they are (`BackAgainIff`).

## Model

| member | source | states |
|---|---|---|
| `LockFreeQueueTheorems.StepKeeps` | src/lockfree/lockfree_job_queue.cpp:76-245 | every atomic step of enqueue, dequeue, guard claim/release and collection keeps the inductive invariant that ties head, tail, links, data, hazard slots, pool and retired nodes to one history of linked jobs |
| `LockFreeQueueTheorems.StepRefines` | src/lockfree/lockfree_job_queue.cpp:90-240 | the link CAS appends exactly its job, the head CAS removes exactly the first, every other step leaves the queue's contents alone |
| `LockFreeQueueTheorems.ListUnique` | src/lockfree/lockfree_job_queue.cpp:90-136 | the list of nodes reached from a node along the links is unique, so the contents of a state are well defined |
| `LockFreeQueueTheorems.LinkedList` | src/lockfree/lockfree_job_queue.cpp:107-136 | the chain from `head_` ends in null and `tail_` is its last or second-last node |
| `LockFreeQueueTheorems.ContentsAre` | src/lockfree/lockfree_job_queue.cpp:76-245 | the jobs found by following the links are the linked and not yet removed part of the history |
| `LockFreeQueueTheorems.SwingTakes` | src/lockfree/lockfree_job_queue.cpp:215-233 | the job a dequeue takes after its head CAS is the first job of the queue before it |
| `LockFreeQueueTheorems.NoRecycledAccess` | src/lockfree/lockfree_job_queue.cpp:92-103 | protect-then-validate: the node whose field the next step reads or writes is allocated and not in the pool |
| `LockFreeQueueScan.ReclaimSafe` | include/kcenon/thread/core/safe_hazard_pointer.h:276-317 | a retired node that a finished, non-atomic scan did not find is held by no operation that validated its protection, whatever slots and records changed during the scan |
| `LockFreeQueueScan.ReadRecordKeeps` | src/core/hazard_pointer.cpp:91-127 | reading one record at a time, regardless of the active flag, keeps the coverage of all validated protections |
| `LockFreeQueueScan.ReclaimKeeps` | src/lockfree/lockfree_job_queue.cpp:286-299 | handing an unprotected retired node back to the pool keeps the invariant |
| `LockFreeQueueRuns.RunInv` | src/lockfree/lockfree_job_queue.cpp:41-50 | the invariant holds in every state of every run from the constructor's dummy node |
| `LockFreeQueueRuns.RunIsFifo` | src/lockfree/lockfree_job_queue.cpp:76-245 | every step of every run is a step of a FIFO sequence that starts empty |
| `LockFreeQueueRuns.JobsConserved` | src/lockfree/lockfree_job_queue.cpp:107-233 | at any moment the jobs linked so far are the jobs removed so far followed by the contents: none lost, duplicated or reordered |
| `LockFreeQueueRuns.ReturnedWasRemoved` | src/lockfree/lockfree_job_queue.cpp:215-233 | a job that a dequeue returns is the one the same call removed from the front, and the call has carried it since |
| `LockFreeQueueRuns.ReturnedOnce` | src/lockfree/lockfree_job_queue.cpp:215-233 | each removal is returned at most once: two returns of it are the same step, of the same call, with the same job |
| `LockFreeQueueRuns.CallAppends` | src/lockfree/lockfree_job_queue.cpp:107-124 | at any moment an enqueue call has appended its job exactly once if it has linked its node, and nothing otherwise |
| `LockFreeQueueRuns.AnsweredEnqueue` | src/lockfree/lockfree_job_queue.cpp:120-140 | an enqueue that answers success appended its job exactly once; one that answers busy appended nothing; there is no other answer |
| `LockFreeQueueAnswers.AnsweredDequeue` | src/lockfree/lockfree_job_queue.cpp:152-244 | a dequeue answers empty, gives up or delivers; it delivers exactly the job its own swing of `head_` took from the front, and with any other answer it removed nothing |
| `LockFreeQueueAnswers.CallRemoves` | src/lockfree/lockfree_job_queue.cpp:205-233 | at any moment of a dequeue it has removed the one job it carries, or nothing |
| `LockFreeQueueAnswers.CallStarts` | src/lockfree/lockfree_job_queue.cpp:76-87 | starting enqueue with a job, or dequeue, puts the thread inside that call |
| `LockFreeQueueAnswers.DequeueBegan` | src/lockfree/lockfree_job_queue.cpp:152-244 | every thread inside a dequeue is in a call that some step started |
| `LockFreeQueueAnswers.EnqueueBegan` | src/lockfree/lockfree_job_queue.cpp:76-145 | every thread inside an enqueue is in a call that some step started with a job |
| `LockFreeQueueAnswers.CallEnds` | src/lockfree/lockfree_job_queue.cpp:76-245 | a call ends exactly with the release of its last guard, keeping its answer |
| `LockFreeQueueAnswers.NullJobRefused` | src/lockfree/lockfree_job_queue.cpp:77-79 | enqueueing null answers invalid argument and changes nothing else |
| `LockFreeQueueAnswers.FewSuccesses` | src/lockfree/lockfree_job_queue.cpp:104-131 | when no other compare-and-swap succeeds, a call makes at most its own link or swing and two moves of `tail_` |
| `LockFreeQueueAnswers.LoneEnqueue` | src/lockfree/lockfree_job_queue.cpp:76-136 | an enqueue during which no other compare-and-swap succeeds succeeds, and the queue is then what it was with the job at its end |
| `LockFreeQueueAnswers.LoneDequeue` | src/lockfree/lockfree_job_queue.cpp:152-244 | a dequeue during which no other compare-and-swap succeeds delivers the first job and leaves the rest, or answers empty exactly when the queue is |
| `LockFreeQueueRuns.EmptyAnswerIsHonest` | src/lockfree/lockfree_job_queue.cpp:195-201 | a dequeue that answers empty at the test of `next` was running at a moment when the queue was empty |
| `LockFreeQueueRuns.RunNeverTouchesRecycled` | src/lockfree/lockfree_job_queue.cpp:157-223 | in no run does a step read or write a node that is in the pool |
| `LockFreeQueueRuns.RunReclaimsUnheld` | include/kcenon/thread/core/safe_hazard_pointer.h:276-317 | every node a collection frees in a run is held by no validated operation |
| `LockFreeQueueRuns.RunShape` | src/lockfree/lockfree_job_queue.cpp:90-240 | in every state the list from `head_` exists, `tail_` is its last or second-last node, and no listed node is retired or free |
| `LockFreeQueueMemory.RetireCollectsIff` | include/kcenon/thread/core/safe_hazard_pointer.h:194-226 | a retiring thread collects exactly when 512 nodes, or 64 and 16 for each active record, are retired |
| `LockFreeQueueMemory.RunRetiredBounded` | include/kcenon/thread/core/safe_hazard_pointer.h:276-340 | in every run at most max(hazard records, 511) nodes are retired, plus one for each thread in or before a collection |
| `LockFreeQueueBounds.RunOwned` | include/kcenon/thread/core/safe_hazard_pointer.h:236-239 | in every state of every run a thread is inside a collection exactly when it holds the lock for one |
| `LockFreeQueueBounds.WaitsIff` | include/kcenon/thread/core/safe_hazard_pointer.h:196-226 | an operation can take a step of its own exactly when it does not want the lock of the retired list while a collection holds it, and then the collection can go on |
| `LockFreeQueueBounds.OwnStepsBounded` | src/lockfree/lockfree_job_queue.cpp:87-136 | each own step lowers what the operation has left, where starting a collection first adds the records and retired nodes it will visit; steps of others add nothing |
| `LockFreeQueueBounds.CallBound` | src/lockfree/lockfree_job_queue.cpp:152-244 | the own steps of a call, waiting for the lock not counted and a guard claimed in one step: at most 6005 for an enqueue and 3708 for a dequeue, plus the records and retired nodes of the collection it runs |
| `LockFreeQueueBounds.CollectsOnce` | include/kcenon/thread/core/safe_hazard_pointer.h:214-226 | a call runs at most one collection |
| `LockFreeQueueRetries.QuietIsFresh` | src/lockfree/lockfree_job_queue.cpp:91-131 | an attempt during which nobody linked a node or swung head or tail has read nothing that is out of date |
| `LockFreeQueueRetries.FailedAttempt` | src/lockfree/lockfree_job_queue.cpp:97-135 | an attempt fails only if, since it began, somebody linked a node or swung head or tail, or a weak compare-and-swap of its own failed spuriously |
| `LockFreeQueueRetries.FailedAttemptsHaveCauses` | src/lockfree/lockfree_job_queue.cpp:155-240 | lock-freedom over every run: the failed attempts of a call are at most the links and swings anybody made since it began plus its own spurious failures |
| `LockFreeQueueRetries.GivingUpHasCauses` | src/lockfree/lockfree_job_queue.cpp:138-140 | an enqueue that answers busy had at least 1000 such causes during the call, a dequeue that gives up at least 100 |
| `LockFreeQueueRetries.InnerAttempts` | src/lockfree/lockfree_job_queue.cpp:163-196 | an attempt whose successor changed under it reads again up to nine times and fails at the tenth |
| `LockFreeQueueProgress.RunSize` | src/lockfree/lockfree_job_queue.cpp:120-121 | in every state `approximate_size_` is the length minus linked-but-uncounted enqueues plus removed-but-uncounted dequeues, modulo 2^64 |
| `Orphans.SearchFinds` | src/core/hazard_pointer.cpp:192-196 | on the sorted argument binary search decides membership |
| `OrphansInvariant.StepInv` | src/core/hazard_pointer.cpp:153-231 | every load, link write, CAS, exchange, deletion and counter update keeps the chains, the places of nodes and the progress of sweeps |
| `OrphansInvariant.NoDangling` | src/core/hazard_pointer.cpp:157-190 | a call in progress never follows a pointer to a deleted node |
| `OrphansRuns.RunInv` | src/core/hazard_pointer.cpp:153-231 | the invariant holds in every state of every run |
| `OrphansRuns.HandedOnceDeletedOnce` | src/core/hazard_pointer.cpp:153-231 | each hand-over of a node is on the list, with exactly one call, or deleted exactly once, even if its address is reused |
| `OrphansRuns.RunNeverDangles` | src/core/hazard_pointer.cpp:153-231 | in every state of every run every call in progress can take its next step |
| `OrphansRuns.SweepIsExact` | src/core/hazard_pointer.cpp:175-225 | when a sweep is over, the call holds exactly the nodes, taken once each, whose objects are in the argument it was called with, the nodes it has deleted since are exactly the others, and its two counts are their numbers |
| `OrphansRuns.RunCount` | src/core/hazard_pointer.cpp:172-225 | the counter is the list length up to the splices not yet counted and the takings not yet discounted |
| `OrphansRuns.IdleCount` | src/core/hazard_pointer.cpp:172-235 | when no call is in progress `count_` is the length of the list |
| `OrphansRuns.ListMoves` | src/core/hazard_pointer.cpp:153-235 | a hand-over gives its nodes to the call, a successful swap puts what the call holds in front of the list, an exchange moves the whole list to the call, and nothing else changes the list |
| `DagSearch.Dfs` | src/dag/dag_scheduler.cpp:992-1013 | depth-first search from a white vertex reports a cycle only if the path to it extends to one, and otherwise finishes the vertex in an order that excludes cycles |
| `DagSearch.DetectCycle` | src/dag/dag_scheduler.cpp:982-1024 | true exactly when some job reaches a cycle along the dependencies, also through ids that were never added |
| `DagSearch.TopologicalSort` | src/dag/dag_scheduler.cpp:925-980 | a permutation of all jobs with dependencies first; empty exactly when there is no job, a reachable cycle or a missing dependency, duplicate edges included |
| `DagSearch.InitialDegrees` | src/dag/dag_scheduler.cpp:931-949 | in-degrees count dependencies with repetition and the initial queue holds the jobs without any |
| `DagSearch.NeededJobs` | src/dag/dag_scheduler.cpp:258-281 | the closure loop of `execute` collects exactly the ids reachable from the target |
| `DagEdits.HiddenLoop` | src/dag/dag_scheduler.cpp:80-98 | a new job that lists itself and that nobody waits for closes a loop that detection does not see |
| `DagEdits.AddJobAcyclicIff` | src/dag/dag_scheduler.cpp:74-102 | `add_job` with detection keeps an acyclic graph acyclic exactly when it hides no such loop |
| `DagEdits.EdgeAcyclic` | src/dag/dag_scheduler.cpp:126-137 | a cycle closed by an edge from a job is always seen |
| `DagEdits.MirrorPush` | src/dag/dag_scheduler.cpp:126-128 | adding an edge to both maps keeps them mirror images as edge multisets |
| `DagEdits.MirrorAdded` | src/dag/dag_scheduler.cpp:80-85 | adding all listed edges, one after the other in both directions, keeps the maps mirror images |
| `DagEdits.MirrorDropped` | src/dag/dag_scheduler.cpp:163-175 | dropping a job's edges from both maps keeps them mirror images |
| `DagEdits.DroppedAcyclic` | src/dag/dag_scheduler.cpp:163-175 | removing a job keeps the graph acyclic |
| `DagEdits.EditKeepsMirror` | src/dag/dag_scheduler.cpp:74-179 | every edit, accepted or rejected, keeps the maps mirrored and only jobs with dependencies |
| `DagEdits.AddJobCounts` | src/dag/dag_scheduler.cpp:74-102 | an accepted job is pending and has exactly the listed edges, with repetition, besides what there was; a refused one changes nothing |
| `DagEdits.AddDependencyCounts` | src/dag/dag_scheduler.cpp:109-143 | exactly one edge more, or nothing when a job is missing or a cycle would close |
| `DagEdits.RemoveJobCounts` | src/dag/dag_scheduler.cpp:145-179 | exactly the edges that touch the job are gone, and a running job stays |
| `DagEdits.EditKeepsAcyclicIff` | src/dag/dag_scheduler.cpp:74-179 | with detection on, an edit keeps an acyclic graph acyclic exactly when it hides no loop |
| `DagEdits.EditsKeepMirror` | src/dag/dag_scheduler.cpp:74-179 | every sequence of edits of a new scheduler keeps the two maps mirror images |
| `DagEdits.EditsStayAcyclicIff` | src/dag/dag_scheduler.cpp:74-179 | over every sequence of edits with detection on the graph stays acyclic exactly when no edit hides a loop |
| `DagRuns.SafeStep` | src/dag/dag_scheduler.cpp:635-819 | every locked section keeps the safety invariant under every policy and with cancellation |
| `DagRuns.RunIsSafe` | src/dag/dag_scheduler.cpp:635-819 | in every state of every run, ready, running, completed and failed jobs have all dependencies completed, direct dependents of failed, cancelled or skipped jobs are cancelled or skipped, and `running_count_` is the number of running jobs |
| `DagRuns.MarkedOk` | src/dag/dag_scheduler.cpp:1058-1142 | marking the dependents that can still be stopped covers all dependents, although the search stops at marked jobs |
| `DagRuns.CompletedStays` | src/dag/dag_scheduler.cpp:635-760 | no step takes a job out of the completed state |
| `DagRuns.CompletedIsFinal` | src/dag/dag_scheduler.cpp:635-760 | over every run a completed job stays completed |
| `DagRuns.LostSpreads` | src/dag/dag_scheduler.cpp:1058-1142 | in a safe state everything that depends on a lost job, at any distance, is cancelled or skipped |
| `DagFailures.RetriesAre` | src/dag/dag_scheduler.cpp:709-717 | the retry count of a job is the number of its failures, up to the limit, and zero under other policies |
| `DagFailures.FailureDecides` | src/dag/dag_scheduler.cpp:706-814 | over every run: the m-th failure makes a job ready again under retry if m is within the limit, completes it under fallback if its fallback succeeds, and fails it otherwise |
| `DagFailures.FailureSpreads` | src/dag/dag_scheduler.cpp:758-812 | a failure that fails its job stops exactly the waiting jobs that depend on it at any distance, skipped under continue_others and cancelled otherwise; all other jobs keep their state |
| `DagFailures.TerminalIsFinal` | src/dag/dag_scheduler.cpp:635-819 | a completed, failed, cancelled or skipped job keeps that state for the rest of the run |
| `DagFailures.CancelAllStops` | src/dag/dag_scheduler.cpp:322-341 | cancel_all cancels the waiting jobs and no other; what was not running then has its final state |
| `DagFailures.StartReadies` | src/dag/dag_scheduler.cpp:185-228 | starting makes exactly the pending jobs ready whose dependencies all completed |
| `DagFailures.SuccessReadies` | src/dag/dag_scheduler.cpp:635-690 | a success completes its job and makes exactly those pending dependents ready whose dependencies are then all completed |
| `DagFailures.FlagsAre` | src/dag/dag_scheduler.cpp:185-228 | the scheduler is executing from a start to its end and cancelled from a cancel_all to the next start; one execution ends before the next starts, and only complete or cancelled |
| `DagProgress.NoDeadlock` | src/dag/dag_scheduler.cpp:1026-1056 | over a sound graph a live state with an unfinished job has a ready or a running one |
| `DagProgress.CanStep` | src/dag/dag_scheduler.cpp:821-884 | and some worker or schedule call can take a step |
| `DagProgress.LiveStep` | src/dag/dag_scheduler.cpp:635-884 | every working step keeps the liveness invariant: ready jobs are expected by a schedule call, pending jobs wait for something |
| `DagProgress.MeasureFalls` | src/dag/dag_scheduler.cpp:705-731 | every working step lowers a measure over job states, remaining retries and schedule calls in progress |
| `DagProgress.ExecutionIsBounded` | src/dag/dag_scheduler.cpp:185-228 | every execution is finite, over any graph and under any policy, bounded by the measure after its start |
| `DagProgress.ExecutionEndsComplete` | src/dag/dag_scheduler.cpp:1159-1172 | an execution in which no step is left has every job in a final state |
| `DagProgress.FallbackStrands` | src/dag/dag_scheduler.cpp:733-760 | if a job with a fallback has a dependent, some execution stops with that dependent pending |
| `DagProgress.CompletesIffPromotes` | src/dag/dag_scheduler.cpp:696-819 | over a sound graph every execution that stops is complete exactly when the policy is not fallback or no job with a fallback has dependents |
| `DagProgress.FallbackCounterexample` | src/dag/dag_scheduler.cpp:742-756 | two jobs suffice: some execution of them stops with the dependent pending |
| `DagScheduler.DropFromAll` | src/dag/dag_scheduler.cpp:163-175 | erases a job and every mention of it from an adjacency map |
| `DagScheduler.MarkingDone` | src/dag/dag_scheduler.cpp:1070-1099 | when the breadth-first queue is empty, exactly the doomed jobs are marked |
| `DagScheduler.Scheduler.constructor` | src/dag/dag_scheduler.cpp:17-25 | a new scheduler has no jobs and no edges and is ready for an execution |
| `DagScheduler.Scheduler.AddJob` | src/dag/dag_scheduler.cpp:74-102 | performs the add edit: refused exactly when detection is on and a job would reach a cycle, then all edges are as before; otherwise the job is pending with its edges |
| `DagScheduler.Scheduler.AddEdges` | src/dag/dag_scheduler.cpp:80-85 | adds both directions of every listed edge, in order |
| `DagScheduler.Scheduler.RollBack` | src/dag/dag_scheduler.cpp:90-97 | restores every edge, in order |
| `DagScheduler.Scheduler.AddDependency` | src/dag/dag_scheduler.cpp:109-143 | performs the edge edit, with `job_invalid` exactly for unknown jobs and `invalid_argument` exactly for a cycle |
| `DagScheduler.Scheduler.RemoveJob` | src/dag/dag_scheduler.cpp:145-179 | performs the remove edit; unknown and running jobs are refused and nothing changes |
| `DagScheduler.Scheduler.AreSatisfied` | src/dag/dag_scheduler.cpp:1026-1049 | true exactly when all dependencies are present and completed |
| `DagScheduler.Scheduler.StartExecution` | src/dag/dag_scheduler.cpp:192-217 | is the start step of a run, or refused while executing |
| `DagScheduler.Scheduler.ExecuteJob` | src/dag/dag_scheduler.cpp:868-893 | is the launch step of a run: only a ready job is started |
| `DagScheduler.Scheduler.OnJobCompleted` | src/dag/dag_scheduler.cpp:635-675 | is the success step of a run: the job completes and exactly the satisfied pending dependents become ready |
| `DagScheduler.Scheduler.OnJobFailed` | src/dag/dag_scheduler.cpp:689-814 | is the failure step of a run for each policy, whose outcome and spread `FailureDecides` and `FailureSpreads` state |
| `DagScheduler.Scheduler.MarkDependents` | src/dag/dag_scheduler.cpp:1058-1142 | the breadth-first loop marks exactly the dependents reachable through jobs that can still be stopped |
| `DagScheduler.Scheduler.CancelAll` | src/dag/dag_scheduler.cpp:322-338 | is the cancel step of a run: every pending or ready job is cancelled |
| `DagScheduler.Scheduler.IsExecutionComplete` | src/dag/dag_scheduler.cpp:1159-1172 | true exactly when every job is in a final state |
| `Cancellation.StepInv` | src/core/enhanced_cancellation_token.cpp:88-281 | register, unregister, cancel, invoke, create and release keep the invariant on tokens, places, reasons, links and causes |
| `Cancellation.StepGrows` | src/core/enhanced_cancellation_token.cpp:234-281 | no step clears a flag, changes a reason or withdraws a call |
| `CancellationRuns.RunInv` | src/core/enhanced_cancellation_token.cpp:88-281 | the invariant holds in every state of every run |
| `CancellationRuns.ReasonWrittenOnce` | src/core/enhanced_cancellation_token.cpp:243-253 | a cancelled token has a reason and keeps that one for the rest of the run |
| `CancellationRuns.RegisterFindsReason` | src/core/enhanced_cancellation_token.cpp:375-405 | registering with a cancelled token always finds the reason, so the substitute reason is never used; the callback is pending at once, whatever it is, and the token is unchanged |
| `CancellationRuns.DrainedDelivery` | src/core/enhanced_cancellation_token.cpp:271-280 | once nothing is pending, a callback that was not unregistered ran exactly once if its token is cancelled and never otherwise |
| `CancellationRuns.RegisteredIsTaken` | src/core/enhanced_cancellation_token.cpp:254-265 | a callback registered when the token is cancelled is pending and no longer registered after that very step |
| `CancellationRuns.DeliveredExactlyOnce` | src/core/enhanced_cancellation_token.cpp:234-281 | over any run: from its token's cancellation on, a callback not unregistered is invoked exactly once, with the token's reason, by the time pending invocations drain |
| `CancellationEffects.CancelTakesEffect` | src/core/enhanced_cancellation_token.cpp:234-270 | over every run: a cancel request leaves its token cancelled; the first one writes its reason and takes every callback that waits there, later ones change nothing |
| `CancellationEffects.CancelDelivers` | src/core/enhanced_cancellation_token.cpp:234-281 | every callback waiting at a token when it is cancelled has run exactly once, with the reason of that request, once nothing is pending |
| `CancellationEffects.InvokeTakesEffect` | src/core/enhanced_cancellation_token.cpp:88-148 | an invocation is one call with the taken reason; through a link it cancels a live child as parent-cancelled and takes the callbacks of that child, and otherwise it changes nothing else |
| `CancellationEffects.CreateTakesEffect` | src/core/enhanced_cancellation_token.cpp:61-64 | a new token is live, not cancelled and without callbacks |
| `CancellationEffects.RegisterTakesEffect` | src/core/enhanced_cancellation_token.cpp:356-401 | with a token that is not cancelled a callback waits under a positive handle of its own, and the others stay |
| `CancellationEffects.UnregisterTakesEffect` | src/core/enhanced_cancellation_token.cpp:403-414 | unregistering takes that callback alone, and it is never invoked later in the run |
| `CancellationEffects.ReleaseTakesEffect` | src/core/enhanced_cancellation_token.cpp:88-148 | a token whose last owner let go is never live again, so links no longer reach it |
| `CancellationEffects.LiveIff` | src/core/enhanced_cancellation_token.cpp:61-148 | a token is live exactly from its creation until its last owner lets go |
| `CancellationRuns.NeverTwice` | core/sync/include/cancellation_token.h:100-123 | in no state of any run was a callback invoked twice or after it was unregistered |
| `CancellationRuns.Propagates` | src/core/enhanced_cancellation_token.cpp:88-148 | once drained, every token reached from a cancelled one through links between live tokens is cancelled |
| `CancellationRuns.CancelledForCause` | src/core/enhanced_cancellation_token.cpp:97-134 | every cancellation goes back along invoked links to one that was requested or timed out |
| `CancellationRuns.DrainIsBounded` | src/core/enhanced_cancellation_token.cpp:271-280 | even around cycles of links, draining takes at most one invocation for each callback |
| `CancellationRuns.CanDrain` | src/core/enhanced_cancellation_token.cpp:271-280 | and never gets stuck before everything was invoked |
| `CancellationToken.TakeAll` | src/core/enhanced_cancellation_token.cpp:255-259 | moves every callback of a map out once |
| `CancellationToken.TokenState.constructor` | src/core/enhanced_cancellation_token.cpp:15-43 | a new token is not cancelled, has no reason and no callbacks |
| `CancellationToken.TokenState.DoCancel` | src/core/enhanced_cancellation_token.cpp:234-270 | the first call sets flag and reason and takes all callbacks, simple ones first; later calls take none |
| `CancellationToken.TokenState.RegisterCallback` | src/core/enhanced_cancellation_token.cpp:356-403 | stores the callback under a new handle, or reports the reason to call back with and handle zero |
| `CancellationToken.TokenState.UnregisterCallback` | src/core/enhanced_cancellation_token.cpp:403-414 | erases the handle from both maps and no other; handle zero is ignored |
| `JobQueue.BatchKeepsBoundIff` | src/core/job_queue.cpp:189-199 | the batch room check respects the bound for all batches exactly when the queue is within it |
| `JobQueue.BatchFitsIff` | src/core/job_queue.cpp:189-199 | a queue within its bound has room for exactly the batches that leave it there; above it, for any batch up to the wrapped difference |
| `JobQueue.LoweredBoundIsIgnored` | src/core/job_queue.cpp:189-199 | two queued jobs, a bound set to one, and a batch is accepted on top |
| `JobQueue.JobQueue.SetMaxSize` | src/core/job_queue.cpp:607-611 | sets the bound and removes no job |
| `JobQueue.JobQueue.constructor` | src/core/job_queue.cpp:33-34 | an empty queue with counter zero and the given bound |
| `JobQueue.JobQueue.Enqueue` | src/core/job_queue.cpp:105-139 | appends, or refuses a stopped queue, a null job or a full queue, in this order; the counter stays the length |
| `JobQueue.JobQueue.EnqueueBatch` | src/core/job_queue.cpp:163-216 | appends all jobs or none, with the exact error; a queue within its bound accepts exactly the batches that leave it there |
| `JobQueue.JobQueue.TryDequeue` | src/core/job_queue.cpp:296-319 | removes and returns the front, or the exact error |
| `JobQueue.JobQueue.DequeueBatch` | src/core/job_queue.cpp:347-363 | returns everything in order and leaves the queue empty |
| `JobQueue.JobQueue.DequeueBatchLimited` | src/core/job_queue.cpp:396-422 | splits off the first jobs, at most the given number |
| `JobQueue.JobQueue.Clear` | src/core/job_queue.cpp:440-451 | empties queue and counter |
| `AdaptiveQueue.AdaptiveQueue.constructor` | src/queue/adaptive_job_queue.cpp:13-34 | an empty queue in the mode of its policy |
| `AdaptiveQueue.AdaptiveQueue.Enqueue` | src/queue/adaptive_job_queue.cpp:60-80 | appends to the one FIFO the caller sees and keeps the unused queue empty |
| `AdaptiveQueue.AdaptiveQueue.Dequeue` | src/queue/adaptive_job_queue.cpp:82-111 | removes the first job of that FIFO, in either mode |
| `AdaptiveQueue.AdaptiveQueue.MigrateToMode` | src/queue/adaptive_job_queue.cpp:330-374 | moves all jobs in order and empties the other queue; loses them exactly when a stopped queue goes from lock-free to mutex mode |
| `AdaptiveQueue.AdaptiveQueue.DrainToMutex` | src/queue/adaptive_job_queue.cpp:347-356 | the draining loop keeps the order |
| `AdaptiveQueue.AdaptiveQueue.SwitchMode` | src/queue/adaptive_job_queue.cpp:225-237 | only under the manual policy; the contents stay |
| `AdaptiveQueue.AdaptiveQueue.AcquireGuard` | src/queue/adaptive_job_queue.cpp:267-279 | the first guard brings the mutex mode and remembers the mode it found; the contents stay |
| `AdaptiveQueue.AdaptiveQueue.ReleaseGuard` | src/queue/adaptive_job_queue.cpp:281-316 | the last release leaves lock-free mode under performance_first, the current mode under accuracy_first, and under balanced or manual lock-free mode exactly when it was on, when more than 10000 operations were counted, or when the guard found it; the contents stay |
| `AdaptiveQueue.AdaptiveQueue.Clear` | src/queue/adaptive_job_queue.cpp:160-172 | empties both queues |
| `AdaptiveQueue.AdaptiveQueue.Stop` | src/queue/adaptive_job_queue.cpp:174-177 | stops both flags and keeps the contents |
| `AdaptiveGuards.Replay` | src/queue/adaptive_job_queue.cpp:225-316 | guards taken and released and modes switched on the queue itself, one call after the other, lead to the modes of the event model and move no job |
| `AdaptiveGuards.ModeInSession` | src/queue/adaptive_job_queue.cpp:225-279 | while guards are held the mode is what the last switch asked for, else the mutex mode |
| `AdaptiveGuards.GuardedIff` | src/queue/adaptive_job_queue.cpp:225-279 | for guard calls that do not overlap, a held guard means the mutex mode throughout exactly when nobody switches to the lock-free mode meanwhile |
| `AdaptiveGuards.RestoredIff` | src/queue/adaptive_job_queue.cpp:225-316 | the mode a session of guards and switches leaves behind, and exactly when it is the mode before: a condition on the mode the last released guard found and the last switch |
| `AdaptiveGuards.RestoredWithoutSwitchIff` | src/queue/adaptive_job_queue.cpp:267-316 | without switches it is restored exactly when it was the mutex mode or the first guard is the last released |
| `AdaptiveGuards.SwitchOutlivesGuard` | src/queue/adaptive_job_queue.cpp:225-237 | one switch under a guard suffices to leave a mutex-mode queue in lock-free mode |
| `AdaptiveGuards.OverlapLosesMode` | src/queue/adaptive_job_queue.cpp:308-313 | two overlapping guards suffice to lose the lock-free mode |
| `AdaptiveRaces.AccurateIff` | src/queue/adaptive_job_queue.cpp:225-316 | however the accesses of guard calls and switches interleave, every held guard finds the mutex mode exactly when no guard is constructed without migrating while the mode is lock-free, and no destructor migrates back and nobody switches to lock-free while a guard is held |
| `AdaptiveRaces.RaceDefeatsGuard` | src/queue/adaptive_job_queue.cpp:267-316 | without any switch, a guard taken between another one's last count and its migration is left holding a lock-free queue with no call in progress |
| `AdaptiveRaces.SerialRefines` | src/queue/adaptive_job_queue.cpp:267-316 | when guard calls do not overlap, every access is one event of the session model or changes nothing in it, and the guard count is the number of guards held |
| `AdaptiveRaces.SerialIsReplay` | src/queue/adaptive_job_queue.cpp:267-316 | so the accesses of calls that do not overlap are a replay of events, to which the session results apply |
| `AdaptiveRaces.SerialAccurateIff` | src/queue/adaptive_job_queue.cpp:225-316 | for guard calls that do not overlap, every held guard finds the mutex mode exactly when nobody switches to lock-free while one is held |
| `AdaptiveRuns.RunConserves` | src/queue/adaptive_job_queue.cpp:60-111 | in every interleaving each accepted job is in one queue, in the migrator's hands, delivered or dropped by the migrator |
| `AdaptiveRuns.LosesIff` | src/queue/adaptive_job_queue.cpp:347-364 | a run loses a job exactly when the migrator puts one down into the mutex queue after a stop reached it, or a lock-free enqueue of the migrator answers busy |
| `AdaptiveRuns.DeliveredOnce` | src/queue/adaptive_job_queue.cpp:82-111 | a job enqueued once is delivered at most once, and then is nowhere else |
| `AdaptiveRuns.DrainsInOrder` | src/queue/adaptive_job_queue.cpp:82-111 | from any state without a migration a lone dequeuer gets every remaining job once, the queue in use first and then the other, one for each call, and is told empty only when both are |
| `AdaptiveRuns.DrainedEverything` | src/queue/adaptive_job_queue.cpp:82-111 | after as many calls as there are jobs every accepted job was delivered or lost by the migrator |
| `AdaptiveRuns.SoloCanCall` | src/queue/adaptive_job_queue.cpp:89-103 | a lone call answers within three accesses |
| `AdaptiveOrder.SubQueueIsFifo` | src/queue/adaptive_job_queue.cpp:60-111 | in every interleaving each step appends to, removes the first of, empties or keeps each sub-queue; a refusal is a stopped mutex queue or a busy lock-free one |
| `AdaptiveOrder.JobsGo` | src/queue/adaptive_job_queue.cpp:60-111 | an accepted job is recorded, a popped job delivered, a job taken by the migrator in its hand |
| `AdaptiveOrder.FlagsAre` | src/queue/adaptive_job_queue.cpp:330-374 | the mode is the target of the last migration begun, and the flags say whether one is under way and whether the queue was stopped; no call starts after a stop |
| `AdaptiveOrder.CallKeepsMode` | src/queue/adaptive_job_queue.cpp:60-111 | a call keeps to the mode it read at its start; a dequeue turns to the other queue only after missing in the first |
| `AdaptiveOrder.PushLandsLast` | src/queue/adaptive_job_queue.cpp:60-80 | an enqueue puts its job last in the queue of the mode it read, unless that queue refuses, and touches no other |
| `AdaptiveOrder.OrderedRun` | src/queue/adaptive_job_queue.cpp:60-111 | a run in which no step jumps the line delivers in the order of enqueueing |
| `AdaptiveOrder.OneFifoIff` | src/queue/adaptive_job_queue.cpp:330-374 | with distinct jobs the two queues act as one FIFO throughout a run exactly when no push has jobs behind it, no pop jobs ahead of it, every migration starts with one queue empty and the migrator loses nothing |
| `AdaptiveOrder.Overtakes` | src/queue/adaptive_job_queue.cpp:340-363 | a run in which a job enqueued during a migration is delivered before an older one |
| `AdaptiveOrder.WithoutMigration` | src/queue/adaptive_job_queue.cpp:60-111 | without a migration, delivered jobs followed by the mutex queue are the enqueued jobs, in order |
| `TokenBucket.RunInv` | src/core/token_bucket.cpp:57-140 | in every interleaving the stock stays between zero and the maximum and refilled intervals tile the time without overlap |
| `TokenBucket.StepPaid` | src/core/token_bucket.cpp:57-140 | granted, stocked and owed tokens grow only by what the claimed stretch of time is worth |
| `TokenBucket.TotalBound` | src/core/token_bucket.cpp:57-98 | over any stretch of a run that total grows no faster than rate times time |
| `TokenBucket.GrantBound` | src/core/token_bucket.cpp:117-140 | tokens granted by any time are at most the burst plus rate times elapsed time |
| `TokenBucket.WindowBound` | src/core/token_bucket.cpp:117-140 | in any window grants are at most a full bucket, what calls had claimed when it began, and rate times the time refilled |
| `TokenBucket.AnsweredAcquire` | src/core/token_bucket.cpp:117-140 | in every interleaving a call ends by taking exactly what it asked for, or because the stock was below the request at some moment of the call |
| `TokenBucket.SoloAcquire` | src/core/token_bucket.cpp:57-140 | a call running alone refills to the cap and grants exactly when the refilled stock suffices |
| `TokenBucket.GainIs` | src/core/token_bucket.cpp:77-84 | elapsed time is worth its rate, rounded down |
| `TokenBucket.RefilledIs` | src/core/token_bucket.cpp:57-98 | a lone refill brings the stock to the maximum exactly when the time is worth that much, and otherwise adds what it is worth to within one scaled token |
| `TokenBucketPolling.Starves` | src/core/token_bucket.cpp:70-85 | a lone poller whose waits are worth less than one scaled token gains nothing, however often it asks |
| `TokenBucketPolling.PollerServedIff` | src/core/token_bucket.cpp:57-140 | a lone poller that asks for more than the stock, but not more than the bucket, is served sooner or later exactly when one wait times the rate is at least one scaled token |
| `SlidingWindow.TurnIsWindow` | src/metrics/sliding_window_counter.cpp:11-16 | a turn of the ring lasts the window exactly when the buckets divide a second |
| `SlidingWindow.ReusedIsExpired` | src/metrics/sliding_window_counter.cpp:162-199 | what a reused bucket discards has left the window |
| `SlidingWindow.TotalIsExact` | src/metrics/sliding_window_counter.cpp:89-121 | for every history under a monotone clock the ring's total is the sum over the log of events whose bucket began after zero and less than the window ago |
| `SlidingWindow.RecentMeans` | src/metrics/sliding_window_counter.cpp:147-199 | in real time nothing older than the window counts, and nothing younger than the window less one bucket is missed |
| `SlidingWindow.Forgets` | src/metrics/sliding_window_counter.cpp:147-153 | for every other number of buckets some history is forgotten too early |
| `SlidingWindow.ExactIff` | src/metrics/sliding_window_counter.cpp:89-199 | ring and log agree on all histories exactly when the buckets per second divide 1000 |
| `SlidingWindow.Counter.constructor` | src/metrics/sliding_window_counter.cpp:11-22 | a ring that has seen nothing |
| `SlidingWindow.Counter.Increment` | src/metrics/sliding_window_counter.cpp:89-101 | the ring after one more event of the log |
| `SlidingWindow.Counter.AdvanceBucket` | src/metrics/sliding_window_counter.cpp:174-199 | resets exactly the stale bucket |
| `SlidingWindow.Counter.TotalInWindow` | src/metrics/sliding_window_counter.cpp:109-121 | the ring's total, and with dividing buckets the log's |
| `SlidingWindow.Counter.Reset` | src/metrics/sliding_window_counter.cpp:127-133 | the ring has seen nothing again |
| `LatencyHistogram.ComputeBucketIndex` | src/metrics/latency_histogram.cpp:283-307 | the shifting loop computes the bucket index |
| `LatencyHistogram.InBucket` | src/metrics/latency_histogram.cpp:266-307 | every 64-bit value lies within the bounds of its bucket |
| `LatencyHistogram.BucketsApart` | src/metrics/latency_histogram.cpp:266-281 | the bounds of different buckets do not overlap |
| `LatencyHistogram.BucketHolds` | src/metrics/latency_histogram.cpp:283-307 | bucket i holds exactly the numbers of i binary digits, bucket 0 zero and the last everything from 2^62 |
| `LatencyHistogram.IndexGrows` | src/metrics/latency_histogram.cpp:283-307 | bucket indices are monotone in the value |
| `LatencyHistogram.SortedRank` | src/metrics/latency_histogram.cpp:122-130 | the rank used here is the position in the sorted samples |
| `LatencyHistogram.CountPermuted` | src/metrics/latency_histogram.cpp:95-97 | counts do not depend on the order of samples |
| `LatencyHistogram.RankBucketIsSampleBucket` | src/metrics/latency_histogram.cpp:132-135 | the bucket found for rank k is the bucket of the k-th smallest sample |
| `LatencyHistogram.PercentileNearSample` | src/metrics/latency_histogram.cpp:122-156 | the value for rank k lies within the bucket of the k-th smallest sample |
| `LatencyHistogram.PercentileOfSorted` | src/metrics/latency_histogram.cpp:122-156 | for samples recorded in any order, the value for rank k lies within the bucket of the k-th of the sorted samples |
| `LatencyHistogram.ReportedGrows` | src/metrics/latency_histogram.cpp:132-151 | the value is monotone in the rank, rank zero included |
| `LatencyHistogram.ReportedIsLinear` | src/metrics/latency_histogram.cpp:138-151 | within a bucket the value rises in proportion to the rank and ends at the upper bound |
| `LatencyHistogram.EqualSteps` | src/metrics/latency_histogram.cpp:138-151 | neighbouring ranks in a bucket are the same step apart |
| `LatencyHistogram.RankGrows` | src/metrics/latency_histogram.cpp:128-130 | the rank is monotone in the percentile |
| `LatencyHistogram.RankCovers` | src/metrics/latency_histogram.cpp:128-130 | the rank is the least number of samples that is at least the fraction p of all; p above one asks for the last, p of zero or below for none |
| `LatencyHistogram.PercentileGrows` | src/metrics/latency_histogram.cpp:122-156 | a higher percentile never reports a lower value |
| `LatencyHistogram.RankZeroIff` | src/metrics/latency_histogram.cpp:128-130 | only a percentile of zero or below asks for rank zero |
| `LatencyHistogram.RankZeroNearMinIff` | src/metrics/latency_histogram.cpp:132-139 | the answer for rank zero lies in the smallest sample's bucket exactly when that sample is zero |
| `LatencyHistogram.MinMaxAre` | src/metrics/latency_histogram.cpp:101-119 | the tracked extremes are the least and the greatest sample |
| `LatencyHistogram.Histogram.constructor` | src/metrics/latency_histogram.cpp:13-17 | the histogram of no samples |
| `LatencyHistogram.Histogram.RecordNs` | src/metrics/latency_histogram.cpp:95-120 | the histogram of one more sample |
| `LatencyHistogram.Histogram.Merge` | src/metrics/latency_histogram.cpp:226-257 | the histogram of both sample sets: buckets, count, sum, minimum and maximum, also when merged into itself |
| `LatencyHistogram.Histogram.Percentile` | src/metrics/latency_histogram.cpp:122-156 | for 0 < p <= 1 the least rank that covers the fraction p, for more the last; the value lies in the bucket of that rank in the sorted samples, in proportion to the rank within it; for percentiles of zero and below 0 if a zero was recorded, else 0.5 |
| `Base64.RoundTrip` | src/utils/convert_string.cpp:520-629 | decoding an encoding gives the data back for every octet sequence, and the encoding is an accepted text |
| `Base64.BackAgainIff` | src/utils/convert_string.cpp:553-629 | encoding an accepted text's meaning gives the text back exactly when its spare bits are zero |
| `Base64.PaddingUnique` | src/utils/convert_string.cpp:566-577 | a text has at most one reading of its padding |
| `Base64.AlphabetIs` | src/utils/convert_string.cpp:520-552 | the character of a sextet, and what a character is read as, are its place in the 64-character alphabet |
| `Base64.QuadIsBits` | src/utils/convert_string.cpp:520-552 | four sextets are the same 24 bits as the three octets, highest first |
| `Base64.OneOctetVector` | src/utils/convert_string.cpp:520-552 | "f" is encoded as "Zg==" |
| `Base64.ThreeOctetVector` | src/utils/convert_string.cpp:520-552 | "foo" is encoded as "Zm9v" |
| `Base64Codec.Base64Encode` | src/utils/convert_string.cpp:520-551 | the shifting loop and the padding loop compute the encoding of section 4 of RFC 4648 |
| `Base64Codec.RawPadded` | src/utils/convert_string.cpp:544-548 | overwriting the last characters with padding gives the encoding |
| `Base64Codec.ShiftStep` | src/utils/convert_string.cpp:607-614 | the 32-bit buffer wraps without losing bits that are still needed |
| `Base64Codec.TakeSextet` | src/utils/convert_string.cpp:607-614 | one round yields exactly the octet the sextet completes |
| `Base64Codec.BuildTable` | src/utils/convert_string.cpp:583-587 | the table inverts the alphabet |
| `Base64Codec.CountPadding` | src/utils/convert_string.cpp:566-572 | the only padding the text can have |
| `Base64Codec.Base64Decode` | src/utils/convert_string.cpp:553-629 | accepts exactly the texts of length divisible by four made of alphabet characters and at most two final padding characters, with their meaning and the exact length; otherwise no data and the length, character or padding-position error exactly where each applies, and never the other two |
| `Base64Codec.EncodeThenDecode` | src/utils/convert_string.cpp:520-629 | decoding what was encoded returns the data and no error |
| `WorkAffinity.CellInRange` | src/stealing/work_affinity_tracker.cpp:184-194 | the index of a pair is within the matrix and no unsigned intermediate value underflows |
| `WorkAffinity.CellInjective` | src/stealing/work_affinity_tracker.cpp:184-194 | different pairs have different indices |
| `WorkAffinity.CellSurjective` | src/stealing/work_affinity_tracker.cpp:184-194 | every index belongs to a pair |
| `WorkAffinity.CountsMore` | src/stealing/work_affinity_tracker.cpp:84-89 | recording a steal changes the cell of its pair alone, and the sum by one |
| `WorkAffinity.Tracker.constructor` | src/stealing/work_affinity_tracker.cpp:12-35 | a tracker that has seen no steal, with at most 32 workers tracked |
| `WorkAffinity.Tracker.RecordCooperation` | src/stealing/work_affinity_tracker.cpp:75-90 | after any run each cell is the number of steals between its pair and the cells sum to `total_cooperations_` |
| `WorkAffinity.AffinityOrders` | src/stealing/work_affinity_tracker.cpp:107-115 | affinities compare as the numbers of steals do, for a history size of zero in one direction only |
| `WorkAffinity.Tracker.GetAffinity` | src/stealing/work_affinity_tracker.cpp:92-115 | times the history size it is the number of steals between the two; infinite exactly for a positive count over zero; zero for untracked or equal workers |
| `WorkAffinity.SortDescending` | src/stealing/work_affinity_tracker.cpp:139-143 | a permutation in descending order of affinity |
| `WorkAffinity.Tracker.GetPreferredVictims` | src/stealing/work_affinity_tracker.cpp:117-155 | distinct tracked workers other than the caller, as many as asked for and available, in descending order, none left out with a higher affinity |
| `WorkAffinity.Tracker.Reset` | src/stealing/work_affinity_tracker.cpp:157-167 | no steal seen |

## Left out

- Weak memory: every atomic access is a sequentially consistent step; `backoff`, sleeps and yields have no effect on state.
- Node pool internals: acquiring and releasing a pool node is one step, so interleavings inside the pool's own free-list CAS loop are not covered; a node is handed out free, with null `next` and the given job.
- Hazard records: claiming or releasing a guard is one step, so the search for a free record and its CAS loop are not counted in the step bounds, and a guard uses one slot; the retired list is a set; a collection of an empty list still reads the records.
- `LockFreeQueueBounds.CallBound`: counts the call's own steps only; the time spent waiting for the lock has no bound, since the lock is not fair.
- The exhausted-retry answer of `dequeue` does not say that the queue was empty, and `lockfree_job_queue::empty` and the destructor are not modelled.
- Collections with a scan older than a node's retirement, and slot counting across hazard-pointer moves, are not modelled.
- `Orphans.State.count` is an integer: the counter itself is this value modulo 2^64, which can be seen only while a call is in progress.
- DAG scheduler: sequential mode, tokens on jobs, `execute(target)` beyond its closure loop, `wait`, `reset`, `active_callbacks_`, `first_error_`, statistics, user callbacks, the moment at which a schedule call reads the cancelled flag (it may go on with an old value at any time), a job's own copy of its dependency list and the text exports; a job id is passed to `add_job` once, as the id counter guarantees.
- `Scheduler.OnJobFailed`: the retry map is compared up to zero entries, which the lookup inserts.
- Cancellation tokens: callbacks are assumed to return; deadlines are a step that may happen at any time, so `extend_timeout` and the timer thread are not modelled; the two callback maps of a token are one map in the state machine; invocations of taken callbacks happen in any order.
- `AdaptiveGuards.GuardedIff`: for guard calls that do not overlap, which `SerialIsReplay` makes precise; overlapping calls are the subject of `AccurateIff`.
- `AdaptiveGuards.RestoredIff`: for guard calls that do not overlap, as above.
- Adaptive queue: each sub-queue operation is one step; `empty`, `size`, mode times and `get_stats` are not modelled; in the sequential class the lock-free half always succeeds.
- Token bucket: exact arithmetic over real rates; int64 overflow, `set_rate`, `set_burst_size`, `reset` and the waiting calls are not modelled.
- Sliding window: sequential use and the constructor arguments for which a bucket lasts at least a millisecond; `rate_per_second` is a division.
- Latency histogram: sequential use, unbounded counters and exact real arithmetic; `mean` and `stddev` are arithmetic over the same counts.
- Base64: `split`, `replace2` and the Unicode conversions are not modelled.
- Work affinity: exact quotients, with infinity for division by zero; rounding is not modelled.
- Out of scope: the backpressure queue, the autoscaler, NUMA stealing and the work-stealing deque, diagnostics and exporters, and the thread, pool, logger and builder classes.
