# A verified model of POTTS

POTTS runs a graph of typed tasks on a pool of worker threads. A task declares
inputs; each input is an edge owned by the task that produces it. The executor
gives every task a depth, sorts the tasks by it, queues them and spawns the
workers. Nothing checks that a task is ready when a worker pops it: the worker
blocks inside the task until all its inputs are published. That no run gets stuck
rests on three pieces of code together, the depth-first search, the unstable sort
and the FIFO queue, which make the popped tasks a dependency-closed prefix of the
order at every moment.

This project models those pieces and the concurrent protocol between them, and
proves what they achieve together: for every acyclic graph whose dependencies are
all submitted, every order the sort may choose, every number of workers from one
up and every interleaving, each run ends, and it ends with every task complete and
holding the value of plain recursive evaluation.

## How it is built

* **Values and reference definitions.** `Graphs` has types with a void case, slots,
  task graphs, the recursive depth of a node and the recursive evaluation of a task.
  `Paths` relates the depth to longest paths and rankings to the absence of cycles.
  `VoidFilter` is the computation of the indices of the non-void inputs.
* **Objects.** `Tasks` has the classes `Edge`, `Marker` and `Task` (a task is its node)
  with `AddInwardEdge`, `Run`, both `SetReachability` methods and the loop
  `ComputeReachability`. `Search` holds what the search does to the marker and to the
  reachabilities, seen as values. `Executors` has the classes `ThreadPool` and
  `ThreadPoolExecutor` as one thread uses them, and the top theorem.
* **The step system.** In `Machine` every thread has a program counter, and one step
  of one thread is one action on shared state: taking or dropping a mutex, one access
  to the queue, the counter, the shutdown flag, an edge or a task state, one
  notification; a section that only tests or pops the queue under the task mutex is one
  step that needs the mutex to be free. `emplace` and `fetch_add`, `fetch_sub` and the
  following load, and `fetch_sub` and the emptying of the queue are separate steps. A
  wait on a condition variable drops the mutex and joins the wait set in one step, and goes back to take
  the mutex and test its condition when it is woken; `notify_one` wakes any one
  sleeper; a sleeper may also wake up without a notification (section 32.6 of ISO/IEC
  14882:2020). Clients call `add_task`, `clear_queued_tasks`, `wait`, `Task::wait` and
  the destructor, in any programs and any number.
* **Invariants.** `Locks` (who holds which mutex), `Ledgers` and `Accounts` (the queue,
  the counter and the tickets), `Programs`, `Wakeups` (workers), `Latches` (edges),
  `Completions` (task waits, shutdown), `PoolWait`, `Cancels`, `Values`, `Stages`,
  `Precedence`, `Callbacks`, `SingleWorker`, `StuckSets`, `Typing` (types of what is
  stored and passed), `Joins` (the destructor); `Invariant` puts most of them together
  over all runs. Safety results allow spurious wake-ups.
* **Theorems.** `PoolTheorems` (any pool), `Termination`, `RunsEnd`,
  `ExecutorTheorems` (completion, for the executor and for tasks added to a running
  pool), `Adders` (programs of clients that add tasks safely), `Sleepers`, `Stranding`
  and `TaskWaiters` (when a sleeper is left behind), `Returns` (for which programs none
  is), `Witnesses` (two runs in which one is), `Submission` (submitting leads to the
  state the executor's runs start from), `Rounds` (the lock-step bound), `Lockstep` (its
  rounds as runs of the step system) and `WorstCase` (lock-step decides what every run
  finishes).

## Assumptions

The source relies on these and does not check them; they appear as preconditions.

* The graph has no cycle and every dependency is also given to the executor.
  `FinishesIffTopological`, `AlwaysFinishesIff` and `TopologicalNeeds` show what
  completion needs. `StuckNeverStarts` says what happens to a task on a cycle or with a
  dependency nobody submits.
* Every set inward edge is the out edge of its owner, the one the owner publishes:
  src/POTTS/Edge.h:43 and src/POTTS/Node.h:75 let a caller make other edges, which
  nobody ever publishes. Nothing is published and no task has run (`Tasks.BeforeRun`):
  edges are never reset, so that a second run would not wait. The search needs none of
  these: it ends, visits the right nodes and stays in bounds on cyclic graphs too.
* Tasks are distinct and not null.
* There is at least one worker; `hardware_concurrency()` may return 0, and then nothing
  ever runs (`FinishesIffWorkers`).
* Callables are pure and total. Fewer than 2^31 nodes where a depth is claimed: the
  depths go through an `int` (src/POTTS/Node.h:244).

Two claims one might expect are false of the code. `clear_queued_tasks` notifies
nobody, so that a thread asleep in `wait` can be left there. `LastClearStrands` says at
which clears that happens, `ClearCanStrand` and `PoolWaitersReturnIff` for which
programs of the clients it can (a client that begins with a wait beside one that begins
with a clear; `cancel` and then `wait` on one thread is safe), and `ClearStrandsAWaiter`
gives a run. A task notifies
one of its waiters, so that the others stay asleep. `AllTaskWaitersReturn` says in which
runs all return, `TwoWaitersStrandOne` and `TaskWaitersReturnIff` for which programs,
and `NotifyOneStrandsAWaiter` gives a run.

Where the documentation and the code differ the model follows the code:
src/POTTS/INode.h:68-75 and src/POTTS/Node.h:188-192 call the reachability a count of
the tasks depended on, the code computes the longest path. A node whose inputs are all
null gets 1, not 0 (src/POTTS/Node.h:257).

## Model

| member | source | states |
|---|---|---|
| VoidFilter.CreateFilteredSequence | src/POTTS/Metafunctions.h:206-226 | the buffer-and-count loops yield the strictly increasing list of exactly the non-void positions, as long as the callable's parameter list, whose k-th type is the type at the k-th index |
| VoidFilter.KeptIsExact | src/POTTS/Metafunctions.h:209-216 | the kept positions are increasing and are all the non-void ones, from any position on |
| VoidFilter.KeptAlignsWithRemoveVoids | src/POTTS/Metafunctions.h:191-226 | the index list and the list with the void types removed have the same length and agree position by position |
| VoidFilter.KeptReadsEvalArgs | src/POTTS/Task.h:115-119 | reading the slots through the kept indices gives the arguments that recursive evaluation passes |
| Graphs.DepthDrops | src/POTTS/Node.h:244-257 | a dependency is strictly shallower than its dependent |
| Graphs.DepthUnique | src/POTTS/Node.h:244-257 | the depth does not depend on the ranking that shows the graph acyclic |
| Graphs.DepthBound | src/POTTS/Node.h:244-257 | no depth exceeds the number of nodes |
| Paths.PathWithinDepth | src/POTTS/Node.h:237-258 | every dependency path ending at a node weighs at most its depth (its edges, and 1 if it starts at a node that declares inputs) |
| Paths.LongestPath | src/POTTS/Node.h:237-258 | some dependency path weighs exactly the depth: reachability is the longest path |
| Paths.RankedIffAcyclic | src/POTTS/Node.h:244-257 | the recursion of one more than the largest input is well-founded, so that a depth is defined, exactly on the graphs in which no path returns to its start |
| Search.InputTurn | src/POTTS/Node.h:247-256 | one turn of the loop over the inputs keeps the search correct, and what the slot contributes is its depth, a null slot 0 |
| Search.ToIntWraps | src/POTTS/Node.h:244-257 | what an int keeps of a reachability: its value modulo 2^32, in the range of an int |
| Search.NoOverflow | src/POTTS/Node.h:257 | on an acyclic graph, or from zeroed fields, adding 1 to the largest input does not overflow an int, and the stored value is the sum |
| Search.RootTurn | src/POTTS/Node.h:237-258 | marking a node, visiting its inputs and storing the maximum plus 1 (0 without inputs) is a correct visit: new nodes only, each once, final on acyclic graphs, within its place in the order of endings from zeroed fields, without overflow |
| Search.SweepEnds | src/POTTS/Helper.h:36-44 | visits with one marker end with exactly the nodes reached from the list, each once, no other field changed, every visited node at its depth, or at most at its finishing place on a cyclic graph |
| Search.UnmarkedVisited | src/POTTS/Node.h:208-226 | the search with its own marker, which does not hold its own node, gives the same depths |
| Tasks.MaxElement | src/POTTS/Node.h:257 | an element of the list not below any other |
| Tasks.Edge.SetData | src/POTTS/Edge.h:59-63 | the data is stored, a void edge stores none, and the edge is retrievable |
| Tasks.Task.constructor | src/POTTS/Node.h:58-61 | all slots null, own out edge unpublished, reachability 0, Incomplete |
| Tasks.Task.AddInwardEdge | src/POTTS/Node.h:98-111 | the slot holds the edge, whatever was there before, and no other slot changes |
| Tasks.Task.RunImpl | src/POTTS/Task.h:115-119 | the callable is applied to the slot values at the given indices, in order |
| Tasks.Task.GetInwardEdgeValue | src/POTTS/Node.h:141-151 | the data of the edge, or a zero of the type of the slot if it is null |
| Tasks.Task.ArgumentsTyped | src/POTTS/Task.h:115-119 | the callable gets one argument per parameter, of its type, and zeros for null slots |
| Tasks.Task.Call | src/POTTS/Task.h:92-98 | with or without inputs the callable gets the values of the non-void slots, in order |
| Tasks.Task.Run | src/POTTS/Task.h:82-105 | the task runs exactly if no set input is unpublished, and otherwise leaves everything alone; it passes the non-void slot values in order to the callable, stores and publishes the result and ends Complete; the start stamp is read before the callable runs and the end stamp after it has, so that they are further apart than it takes |
| Tasks.ReadingEvaluates | src/POTTS/Task.h:92-98 | if the inputs hold the values of recursive evaluation, so does the result |
| Tasks.Task.VisitInput | src/POTTS/Node.h:248-255 | a set edge's owner is visited and its reachability read, a null one contributes 0 and changes nothing |
| Tasks.Task.VisitInputs | src/POTTS/Node.h:242-257 | all inputs are visited, and the largest value is the largest depth of a slot on an acyclic graph |
| Tasks.Task.StoreReachability | src/POTTS/Node.h:257 | one more than the largest input is stored, nothing without inputs, and no other field changes |
| Tasks.Task.SetReachabilityShared | src/POTTS/Node.h:237-258 | the recursive search on the objects terminates on every graph, and is a correct visit of this node |
| Tasks.Task.SetReachability | src/POTTS/Node.h:208-226 | every node reached from this one gets its depth on an acyclic graph, nothing else changes on any graph, and from zeroed fields no field exceeds the number of nodes plus 1, also on a cycle through this node, which expands it twice |
| Tasks.ComputeReachability | src/POTTS/Helper.h:35-44 | whatever was stored and whatever the order of the list, exactly the nodes the listed tasks depend on are visited, once each, and get their depths; from zeroed fields also a cyclic graph stays within the number of nodes |
| Executors.ThreadPool.AddTask | src/Executor/ThreadPool.h:98-118 | a task is queued last and counted; null is refused and nothing changes |
| Executors.ThreadPool.ClearQueuedTasks | src/Executor/ThreadPool.h:128-135 | the queue is empty and the count of what is running is kept |
| Executors.ThreadPool.Run | src/Executor/ThreadPool.h:281-299 | as many workers as configured are spawned |
| Executors.Sort | src/Executor/ThreadPoolExecutor.h:102-104 | a permutation of the tasks in which no later task is smaller; ties are left to chance, and nothing else is relied on |
| Executors.SortedIsTopological | src/Executor/ThreadPoolExecutor.h:101-109 | however ties are broken, every dependency comes strictly before its dependents |
| Executors.ComputeAndSort | src/Executor/ThreadPoolExecutor.h:101-104 | the depths are stored and the tasks sorted by them |
| Executors.TopologicalNeeds | src/Executor/ThreadPoolExecutor.h:101-109 | an order can be topological only if it holds every dependency and no task of it depends on itself, so that these assumptions cannot be dropped |
| Executors.OrderIsSorted | src/Executor/ThreadPoolExecutor.h:101-104 | after the search, sorted by operator< means sorted by depth, hence topological |
| Executors.ThreadPoolExecutor.AddTask | src/Executor/ThreadPoolExecutor.h:77-80 | the task is appended |
| Executors.ThreadPoolExecutor.Run | src/Executor/ThreadPoolExecutor.h:95-111 | the pool exists, holds a permutation of the tasks behind what was queued, sorted by depth and in topological order, counted, with its workers spawned; every node the tasks depend on is left with its depth, no other node changes, and from zeroed fields a cyclic graph stays within the number of nodes |
| Executors.ThreadPoolExecutor.Cancel | src/Executor/ThreadPoolExecutor.h:121-127 | the queue is dropped and uncounted and nothing else changes; without a pool nothing happens |
| Executors.ThreadPoolExecutor.Wait | src/Executor/ThreadPoolExecutor.h:136-142 | goes through at once without a pool or on an idle one, and only then |
| Tasks.BlockedAgrees | src/POTTS/Task.h:84-89 | where each set in-edge is its owner's out edge, a task object would wait exactly if a worker of the step system in the same state of flags would |
| Executors.LaunchedIsReady | src/Executor/ThreadPoolExecutor.h:95-111 | what Run leaves of tasks that have not run is the starting state of the step system: queue, counter, shutdown flag, publication flags, phases, callables and which tasks would wait; and its order is one the executor theorems apply to |
| Executors.LaunchedRunsComplete | src/Executor/ThreadPoolExecutor.h:95-111 | all layers together: every run of what Run has launched that cannot go on has completed every task with its recursive value |
| Executors.RunToCompletion | src/Executor/ThreadPoolExecutor.h:95-111 | from the objects to the end: after Run on distinct tasks that have not run, wired by their out edges, of an acyclic graph, holding all their dependencies, the tasks have their depths, and every run of the pool, which has no callback, beside waiting clients ends with every task complete with its recursive value |
| Submission.SubmissionReachesStart | src/Executor/ThreadPoolExecutor.h:105-109 | submitting the tasks one by one, eight steps each, leads from the empty pool to the starting state of the executor's runs |
| Submission.ExecutorRunsArePoolRuns | src/Executor/ThreadPoolExecutor.h:105-110 | every run of an executor continues such a run of the pool |
| Locks.LockStep | src/Executor/ThreadPool.h:304-308 | every step keeps the mutexes in agreement with the program counters |
| PoolTheorems.MutualExclusion | src/Executor/ThreadPool.h:304-308 | no two threads are inside sections of the same mutex, in any state of any run |
| PoolTheorems.QueueIsExclusive | src/Executor/ThreadPool.h:248-256 | the queue is tested, popped, extended, counted and emptied only while no other thread is in a section of the task mutex, and changes in no other step |
| Ledgers.EventInv | src/Executor/ThreadPool.h:106-135 | a pop, the two halves of an add and of a clear, and a decrement keep the accounts of queue, counter and tickets |
| Accounts.StepIsEvent | src/Executor/ThreadPool.h:249-262 | every step is one such event and meets its conditions, thanks to the task mutex |
| PoolTheorems.Conservation | src/Executor/ThreadPool.h:106-135 | the counter is the queue plus the popped tasks not yet decremented, corrected by an add or clear under way, and is never negative |
| PoolTheorems.FirstInFirstOut | src/Executor/ThreadPool.h:250-256 | popped submissions come in submission order before the queued ones, and every submission off the queue was popped or cleared and not both |
| PoolTheorems.NoTaskTwice | src/Executor/ThreadPool.h:250-262 | no submission is carried by two workers, or carried once finished |
| PoolTheorems.WorkersAreWoken | src/Executor/ThreadPool.h:106-116 | no lost wake-up: while a worker sleeps before shutdown, the queue is no longer than the notifications owed plus the workers on their way to pop |
| PoolTheorems.WaitReturnsSettled | src/Executor/ThreadPool.h:158-164 | when wait returns, every submission counted at its call has finished or was cleared |
| PoolTheorems.WaitSettles | src/Executor/ThreadPool.h:158-164 | from any call of wait to any state after its return: everything counted at the call has finished or was cleared |
| PoolTheorems.WaitersAreWoken | src/Executor/ThreadPool.h:258-269 | without clears, an idle pool with no worker between decrement and notification has no sleeping waiter |
| PoolTheorems.ConsumersAreWoken | src/POTTS/IEdge.h:69-93 | once an edge is up and its notifier is past notify_all, no consumer of it is asleep or about to sleep |
| PoolTheorems.TaskWaiterIsWoken | src/POTTS/Task.h:101-104 | the only waiter of a task does not miss its completion |
| Returns.TaskWaitReturnsComplete | src/POTTS/Task.h:130-137 | whoever has returned from a wait for a task finds it published, stamped and complete for good, if no task is submitted twice |
| PoolTheorems.ScheduleIndependence | src/POTTS/Task.h:84-119 | in every state of every run a published edge and a complete task hold the value of recursive evaluation |
| Typing.TypeSoundness | src/POTTS/Node.h:141-151 | on any graph whose edges have the types of their slots, in every state of every run: stored data and results have the type of their task, void edges hold no data, and each argument read has its parameter type and is a zero at a null slot |
| Typing.EvalTyped | src/POTTS/Task.h:115-119 | recursive evaluation passes arguments of the parameter types, zeros at null slots, and yields the result type |
| PoolTheorems.StuckNeverStarts | src/POTTS/Task.h:84-89 | a task that depends on itself or on a task nobody submits never starts |
| StuckSets.CycleIsStuck | src/POTTS/Task.h:84-89 | the tasks of a cycle are such tasks |
| Termination.StepDrops | src/Executor/ThreadPool.h:247-299 | every step other than a spurious wake-up drops a well-founded measure, for all programs and graphs |
| Termination.InfiniteRunsAreSpurious | src/Executor/ThreadPool.h:247-299 | an infinite run has spurious wake-ups for ever |
| Termination.Drive | src/Executor/ThreadPool.h:247-299 | whatever enabled step is picked each time, a state is reached in which no thread can move |
| RunsEnd.NoMutexHeld | src/Executor/ThreadPool.h:304-308 | when no thread can move, no mutex is held |
| RunsEnd.PoppedAreFinished | src/POTTS/Task.h:82-105 | when no thread can move, every popped task is finished: the earliest unfinished one is never blocked |
| ExecutorTheorems.EverySubmissionCompletes | src/Executor/ThreadPool.h:98-118 | tasks may be added to the running pool by any clients: if what was submitted is distinct and in topological order, every run that cannot go on has an empty queue, counter 0 and every submitted task complete with its recursive value |
| ExecutorTheorems.EveryAddedTaskCompletes | src/Executor/ThreadPool.h:98-118 | this covers every task given to the executor and every task added by a client that is through |
| ExecutorTheorems.EverySubmitterReturns | src/Executor/ThreadPool.h:98-164 | and every client is through, surplus waiters on one task and waiters on tasks not submitted aside |
| Adders.AlwaysWellOrdered | src/Executor/ThreadPool.h:98-118 | if no task is added twice and every client adds a task after it has added what the task depends on, or has waited for it, then in every state of every run what is submitted is distinct and in topological order |
| Adders.SoleAdder | src/Executor/ThreadPool.h:98-118 | with one adding client it is enough that the order followed by its adds is distinct and topological |
| Adders.EverythingAddedCompletes | src/Executor/ThreadPool.h:98-118 | for such programs every run ends idle with every task of the order and of every add complete with its recursive value and every client through, if its task waits are for tasks of the order, of its own earlier adds or of clients that come before it |
| ExecutorTheorems.EveryRunCompletes | src/Executor/ThreadPoolExecutor.h:95-111 | every run of the executor that cannot go on has an empty queue, counter 0 and every task complete with its recursive value |
| ExecutorTheorems.EveryClientReturns | src/Executor/ThreadPoolExecutor.h:136-142 | and every client has returned from all its calls, surplus waiters on one task and waiters on foreign tasks aside |
| ExecutorTheorems.EverySchedulerCompletes | src/Executor/ThreadPoolExecutor.h:95-111 | every scheduler gets there |
| ExecutorTheorems.PoppedIsClosedPrefix | src/Executor/ThreadPool.h:250-256 | at any point the popped tasks are a prefix of the order and no other has started; for a topological order the prefix is closed under dependencies |
| ExecutorTheorems.CancelStrandsNoTask | src/Executor/ThreadPoolExecutor.h:121-127 | whenever it is cancelled, every popped task completes with its value and no dropped one starts |
| ExecutorTheorems.WaitAfterCancelReturns | src/Executor/ThreadPoolExecutor.h:121-142 | a wait called after cancel on the same thread returns |
| ExecutorTheorems.ShutdownDrains | src/Executor/ThreadPool.h:62-74 | whenever the destructor runs, every popped task completes, every worker exits and every join returns |
| Joins.DestructorJoinsAll | src/Executor/ThreadPool.h:62-74 | in every state of every run of any pool, once a destructor has returned the flag is up, every worker has exited and nobody carries a task |
| ExecutorTheorems.OneMorePop | src/Executor/ThreadPool.h:284-297 | after the flag is raised each worker pops at most one more task |
| PoolTheorems.PrecedenceHolds | src/POTTS/Task.h:84-102 | in any pool to which no task is submitted twice, also beside cycles and missing dependencies, the last task along a dependency path has ended strictly before the first starts |
| PoolTheorems.StampsAreNew | src/POTTS/Task.h:90-100 | in any pool, a start or end stamp that appears between two states of a run is later than every stamp of the first |
| PoolTheorems.StampsStay | src/POTTS/Task.h:90-100 | if no task is submitted twice, no stamp ever changes and each task starts before it ends |
| PoolTheorems.RunningAfterPublication | src/POTTS/Task.h:84-89 | in any pool a task is Running or Complete only after everything it depends on, directly or through others, is published |
| PoolTheorems.NoReadOverlapsWrite | src/POTTS/Edge.h:59-77 | if no task is submitted twice, an edge is read only after its flag is up, and nobody is about to write it then |
| ExecutorTheorems.CallbackOnce | src/Executor/ThreadPool.h:258-268 | the completion callback fires at most once, after every task has finished, and before any wait returns |
| ExecutorTheorems.CallbackFires | src/Executor/ThreadPool.h:258-268 | and it has fired when the run is over |
| PoolTheorems.CallbackPerIdling | src/Executor/ThreadPool.h:263-267 | in any pool, whatever is added and cleared, a worker that reads 0 after its decrement fires the callback once, and without a callback none ever fires |
| ExecutorTheorems.SingleWorkerNeedsOrder | src/Executor/ThreadPool.h:250-255 | with one worker, a run that finishes everything exists only for a topological order |
| ExecutorTheorems.SingleWorkerIff | src/Executor/ThreadPool.h:250-255 | with one worker, on any graph, some run and every run finishes everything if and only if the order is topological |
| ExecutorTheorems.FinishesIffTopological | src/Executor/ThreadPoolExecutor.h:101-109 | on any graph, cyclic ones and missing dependencies included, all runs with any number of workers from one up finish all tasks if and only if the queue order is topological: the sort is needed and is enough |
| ExecutorTheorems.FinishesIffWorkers | src/Executor/ThreadPoolExecutor.h:97-99 | a non-empty executor with a topological order finishes its tasks if and only if it has a worker |
| WorstCase.EveryRunFinishesIff | src/Executor/ThreadPool.h:250-262 | on any graph, for any order and any number of workers, every run finishes a task if and only if the lock-step schedule finishes it within as many rounds as there are tasks |
| WorstCase.AlwaysFinishesIff | src/Executor/ThreadPool.h:250-262 | so all runs finish all tasks if and only if lock-step does, a condition on the graph, the order and the number of workers alone |
| WorstCase.MoreWorkersFinish | src/Executor/ThreadPool.h:281-299 | more workers do no harm: on any graph a task that every run finishes with some workers is finished by every run with more |
| Stranding.StrandedForever | src/Executor/ThreadPool.h:128-135 | a thread parked in wait on an idle pool with no notification coming stays there |
| Stranding.LastClearStrands | src/Executor/ThreadPool.h:128-135 | after the last clear a thread stays asleep in wait for ever exactly if it was parked there at the clear, the counter equalled the queue size and no worker was in its section; every other thread returns |
| Stranding.ClearCanStrand | src/Executor/ThreadPool.h:128-135 | for every executor with tasks, if one client begins with wait and another with a clear, some run ends with the first asleep |
| Returns.IdleAfterWait | src/Executor/ThreadPool.h:158-164 | once some wait has returned and nothing is added, the counter is 0 and everything submitted is finished or cleared in every later state |
| Returns.PoolWaitersReturnIff | src/Executor/ThreadPool.h:128-164 | where the clients that wait or clear begin with one of the two, whatever they call later, all waiters return in all runs if and only if no client begins with a wait while another begins with a clear |
| TaskWaiters.NotifyWakesOne | src/POTTS/Task.h:103-104 | of the threads asleep on a task when it notifies, exactly the one picked is ever woken |
| TaskWaiters.TwoSleepersLeaveOne | src/POTTS/Task.h:103-104 | once two threads are asleep on a task, one of them is asleep ever after |
| TaskWaiters.AllTaskWaitersReturn | src/POTTS/Task.h:130-137 | in a given run all waiters of a task return if and only if no two are ever asleep at the same time |
| TaskWaiters.TwoWaitersStrandOne | src/POTTS/Task.h:103-104 | for every executor, if two clients begin by waiting for the same task, some run ends with one of them asleep |
| Returns.TaskWaitersReturnIff | src/POTTS/Task.h:130-137 | where the programs that wait for a task begin with that wait or with one for the pool, all its waiters return in all runs if and only if at most one client begins by waiting for it |
| Witnesses.ClearStrandsAWaiter | src/Executor/ThreadPool.h:128-135 | a run of the executor that ends idle with a client asleep in wait |
| Witnesses.NotifyOneStrandsAWaiter | src/POTTS/Task.h:101-104 | a run of the executor that ends with a task complete and a client asleep in its wait |
| Rounds.RoundDrops | src/Executor/ThreadPoolExecutor.h:102-109 | each lock-step round empties the lowest unfinished level or finishes as many of its tasks as there are workers |
| Rounds.LockStepRounds | src/Executor/ThreadPoolExecutor.h:102-109 | on the board of the schedule, all n tasks finish within R rounds, R the sum over the levels of level size over k rounded up, and k times R is at most n plus k - 1 per level that some task has |
| Lockstep.RunToPop | src/Executor/ThreadPool.h:284-296 | a free worker alone takes the head of a non-empty queue and changes nothing else |
| Lockstep.RunToEnd | src/POTTS/Task.h:82-105 | a worker whose inputs are published runs its task to the end alone, without waiting |
| Lockstep.RoundRun | src/Executor/ThreadPool.h:284-297 | one round of the schedule is a run of the step system |
| Lockstep.LockStepFinishes | src/Executor/ThreadPoolExecutor.h:102-109 | so the bound holds of the step system: a run of R rounds finishes every task |

## Left out

- Weak memory: steps are sequentially consistent, including the unlocked reads of the shutdown flag.
- Exceptions, termination by `noexcept`, callables with side effects or calling back into the pool.
- The concurrent parts of the pool, the edges and the tasks are a step system over values, since Dafny has no threads; the classes are what one undisturbed thread sees.
- The template machinery: `function_traits`, the concepts, overload selection, access to edges by type (the access by index is modelled).
- The width of the counter (`std::atomic<int>`): it is an unbounded integer, exact below 2^31 tasks under way.
- The internals of `std::sort`, `std::set` and `std::queue`; node addresses are abstract numbers.
- Wall-clock times, names and descriptions: a logical clock stamps start and end.
- A second `run()` of an executor, repeated or null tasks, moving an executor.
- `get_queued_tasks`, `size`, `worker_count`, the timing reports and the build files.
- Tasks.Task.Run: returns false where the source blocks on an unpublished input, because one thread alone would wait for ever; the blocking, and who ends it, is in the step system.
- Executors.ThreadPoolExecutor.Wait: says whether the wait goes through at once, where the source blocks until the pool is idle; that blocking is in the step system too.
- The round bound speaks of the lock-step schedule only; nothing is said about the time of other schedules.
