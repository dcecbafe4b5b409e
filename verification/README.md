# Verification models of the operating-systems labs

Three programs of this repository, modelled in Dafny and proved correct:

* **The concurrent bank (`lab_3`).** Transaction threads take buffer-pool slots, lock accounts in
  ascending order, move money, release the locks, settle with the reserve and wait for clock ticks, while
  a timer advances the tick. `BankModel` is the transition system: one program counter per thread,
  one step per lock, write, permit or tick wait, and schedules that pick any thread or the timer at any
  point. `BankLocks`, `BankPool`, `BankLedger` and `BankProgress` prove what holds in every interleaving,
  `BankRecords` what the figures reported about the pool and the transactions mean, `BankDeadlock` when a
  deadlock is possible and `BankFairness` that fair schedules finish; `BankSystem` is the program that
  updates the shared variables in place, proved to be that system.
* **The discrete-event CPU scheduler (`lab_2/schedsim-2`).** An event list, a ready queue and handlers
  for arrival, completion and quantum expiry drive five policies. `SchedModel` and `SchedRun` define one
  handled event as a step on states; `SchedInv` is the invariant that ties event list, ready queue,
  running process, clock and trace together (time is charged when a slice is dispatched and the event
  fires later); `SchedTheorems`, `SchedSlices`, `SchedFcfs`, `SchedSjf`, `SchedShortest`, `SchedStcf`,
  `SchedRoundRobin`, `SchedRounds` and `SchedMlfq` prove the results about whole runs, `SchedBoost` what a
  priority boost does to the queue and to the invariant. `SchedQueues`, `MlfqLists` and `Simulator` are the
  program: queues and handlers that update fields, arrays and linked lists in place, proved to do what a
  step does.
* **The array min-heap and the tick-driven SJF loop (`lab_2/schedsim`).** The side of the unresolved merge
  in which the heap is ordered by burst time and then arrival time. `HeapModel` and `TickSjf` are the
  functions, `TickTheorems` the results, `TickSystem` the heap sifted in place and the loop over time units.

`Processes` is the process table both schedulers use; `Sums` and `Wrappers` are small helpers.

Run-level results hold for all inputs and all schedules: a run of k steps is a function of the
configuration (and, for the bank, the schedule), and the theorems quantify over both. Traces, logs and
waiting-time histories are ghost state that no step reads.

## What the code and its documents disagree about

The models follow the code.

* `lab_3/docs/design.md` claims that lock ordering prevents deadlock. For account locks it does. The pool
  is a second layer of resources, and a TRANSFER holds one slot while it waits for another:
  `BankProgress.DeadlockFree` needs fewer transferring transactions than slots, and
  `BankDeadlock.DeadlockIff` shows that the bound is sharp when no transaction withdraws before its first
  transfer. A withdrawal that fails aborts its transaction before the transfer, so with withdrawals in
  front it depends on the balances whether enough transactions get there:
  `BankDeadlock.DeadlockReachable` gives a deadlock, for any workload, if enough do so when run up to that
  point in input order, and `BankDeadlock.DeadlockIffCovered` the equivalence if all do.
* `lab_3/docs/design.md` describes page eviction, write-back and lock timeouts, and `lab_3/README.md` a
  second semaphore; the code has none of them.
* `lab_2/schedsim-2/README.md` presents STCF as preemptive SJF, which would mean that nobody who is ready
  ever has less work left than the running process. Every dispatch is like that
  (`SchedStcf.StcfDispatchesShortest`). But `schedule_stcf` plans a slice up to the next arrival only if the
  next queued arrival is not due now; if it is, the slice runs to completion
  (`lab_2/schedsim-2/src/schedulers/shortest-time-completion-first.c:18-22`), and no arrival preempts it,
  because its whole work has been charged. `SchedStcf.StcfCounterexample` is a workload where a process
  with one unit of work waits for five; `SchedStcf.StcfSliceIff` and `SchedStcf.StcfPreemptiveIff` say
  exactly when it happens, and `SchedStcf.StcfMinimalIfLonger` gives workloads on which it never does.
* The tick-driven loop counts remaining time down to exactly zero, so a process with a burst of zero
  keeps it running for ever: `TickTheorems.EndsIffPositive`.

## Model

| member | source | states |
|---|---|---|
| `BankSystem.System.constructor` | lab_3/src/buffer_pool.c:6-18 | the initial state: no lock held, every slot free, one permit per slot, every thread before its start tick |
| `BankSystem.System.LoadAccount` | lab_3/src/buffer_pool.c:23-41 | the scanning loop takes the first free slot and no other, and counts the load and the usage; the peak grows to the new usage if that is larger |
| `BankSystem.System.UnloadAccount` | lab_3/src/buffer_pool.c:43-57 | the scanning loop frees the first slot in use that holds the account and no other, and counts the unload |
| `BankSystem.System.CanStep` | lab_3/src/timer.c:33-39 | true exactly when the thread's next step does not block: tick reached, permit left, account lock free |
| `BankSystem.System.PoolStep` | lab_3/src/buffer_pool.c:20-58 | taking a permit, scanning, and posting a permit are separate steps, each with the state change the model gives it |
| `BankSystem.System.AccountStep` | lab_3/src/bank.c:22-74 | lock, debit, credit, unlock and reserve update are separate steps, each with the balances, locks and reserve the model gives it |
| `BankSystem.System.Advance` | lab_3/src/transaction.c:21-133 | the control flow of `execute_transaction` and the bank operations, branch by branch, moves the thread where the model's step moves it and writes the same start, end, wait and status fields |
| `BankSystem.System.ThreadStep` | lab_3/src/transaction.c:8-134 | one in-place step of a transaction thread is one step of the interleaving model, for every program counter |
| `BankSystem.System.TotalBalance` | lab_3/src/main.c:14-20 | the accumulation loop returns the sum of all balances plus the reserve |
| `BankSystem.System.Execute` | lab_3/src/main.c:32-44 | running a schedule in place ends in the model's state for that schedule, so every theorem about schedules is about the program |
| `BankSystem.RunBank` | lab_3/src/main.c:32-65 | from spawn to join under any schedule that completes: both audits give the initial total, the log is a legal sequential history, and balances and reserve are its replay |
| `BankLocks.LocksAgree` | lab_3/src/bank.c:14-74 | in every interleaving the owners of every reader-writer lock are exactly the threads whose program counters say so |
| `BankLocks.WriterAlone` | lab_3/src/bank.c:22-74 | a thread holding an account for writing excludes every other reader and writer of that account, in every interleaving |
| `BankLocks.LockModes` | lab_3/src/bank.c:14-74 | in every interleaving a balance read at its lock can go on iff nobody holds the account for writing, however many read it; a writing operation iff nobody holds it at all |
| `BankLocks.NoLockWhileWaitingForSlot` | lab_3/src/transaction.c:61-72 | no account lock is held in the name of a thread that waits for a pool slot |
| `BankPool.PoolConsistent` | lab_3/src/buffer_pool.c:20-58 | in every interleaving: permits plus permits in transit plus slots in use is the pool size; each account is in as many slots as transactions have loaded and not unloaded it; usage = loads - unloads = slots in use; usage <= peak <= pool size |
| `BankPool.ScansSucceed` | lab_3/src/buffer_pool.c:31-54 | in every interleaving the scan for a free slot and the scan for the account to unload both end at a slot |
| `BankPool.PoolDrains` | lab_3/src/main.c:42-53 | after all joins every slot is free, every permit is back and loads equal unloads |
| `BankRecords.PoolCounts` | lab_3/src/buffer_pool.c:23-57 | the load and unload counters are the numbers of load and unload steps in the schedule |
| `BankRecords.PeakIsLargest` | lab_3/src/buffer_pool.c:27-29 | the peak is the largest usage the run has had: no prefix of the schedule has more slots in use, and one has exactly that many |
| `BankRecords.TransactionRecords` | lab_3/src/transaction.c:14-128 | told by the schedule alone, for a transaction that has ended: actual_start is the tick of its first clock reading, actual_end that of its last, and wait_ticks is the sum over its operations of the tick after the operation minus the tick before it |
| `BankRecords.TickWaits` | lab_3/src/transaction.c:12-107 | under any interleaving a transaction may start iff its start tick has come, and may go on after an operation iff the tick has moved since the operation ended |
| `BankRecords.HeldBetweenLoads` | lab_3/src/transaction.c:66-70 | between its two loads a transfer holds the account with the smaller id |
| `BankRecords.HeldBetweenUnloads` | lab_3/src/transaction.c:72-120 | between its two unloads a committing transfer holds the smaller account, an aborting one the larger |
| `BankLedger.Refinement` | lab_3/src/bank.c:14-74 | for every interleaving the log, in the order operations took effect under their locks, is a legal history of the sequential bank (so every balance read and every outcome is the sequential one), and stored balances differ from its replay only by half-done transfers whose writer still holds the lock |
| `BankLedger.QuiescentRefinement` | lab_3/src/main.c:42-56 | when all transactions have ended, balances and reserve are exactly those of the sequential replay |
| `BankLedger.Conservation` | lab_3/src/bank.c:22-74 | accounts + reserve + money in flight (half-done transfers, reserve updates still owed) is the initial total in every reachable state, aborts included |
| `BankLedger.AuditPasses` | lab_3/src/main.c:55-65 | the audit after all joins finds the initial total whatever the interleaving and however many transactions aborted half-way |
| `BankLedger.NeverOverdrawn` | lab_3/src/bank.c:31-74 | with non-negative initial balances and amounts no stored balance is negative in any reachable state, not even between the two writes of a transfer |
| `BankLedger.ProgramOrder` | lab_3/src/transaction.c:21-123 | each transaction's entries in the log are its operations in program order, each once, and only the last can have failed |
| `BankLedger.OutcomeMatchesReplay` | lab_3/src/transaction.c:48-84 | a finished transaction is committed iff all its operations took effect with success, and aborted iff its last logged operation failed; earlier ones stay in effect |
| `BankProgress.LockOwnerMoves` | lab_3/src/bank.c:45-60 | ascending lock order: from any thread waiting for an account lock, following lock owners reaches a thread that can step |
| `BankProgress.DeadlockFree` | lab_3/src/transaction.c:61-121 | with fewer transactions containing a TRANSFER than pool slots, and any number of others, every reachable state with an unfinished transaction has a thread that can step now or after finitely many ticks |
| `BankProgress.DeadlockShape` | lab_3/src/buffer_pool.c:20-22 | a run is deadlocked iff no permit is left and every unfinished thread waits for one; account locks are never part of a deadlock |
| `BankDeadlock.DeadlockReachable` | lab_3/src/transaction.c:69-70 | for any workload: constructs a deadlocked run whenever at least as many transactions as there are slots get to a TRANSFER when they run up to their first one, one after the other in input order (withdrawals before it covered), although account locks are ordered |
| `BankDeadlock.DeadlockIff` | lab_3/src/transaction.c:61-121 | when no transaction withdraws before its first transfer (deposits and balance reads may come first): some interleaving deadlocks iff at least as many transactions transfer as there are slots |
| `BankDeadlock.DeadlockIffCovered` | lab_3/src/transaction.c:45-84 | the same iff for workloads with earlier withdrawals, as long as these are covered when the transactions run up to their first transfers in input order |
| `BankDeadlock.SoloRun` | lab_3/src/transaction.c:21-123 | an operation that nothing interferes with runs to its end: its slot and lock are returned, one tick is enough for its wait, and the balances are those of the sequential bank |
| `BankProgress.WorkFalls` | lab_3/src/transaction.c:21-123 | every thread step lowers a non-negative measure, so no interleaving takes infinitely many thread steps |
| `BankProgress.CanFinish` | lab_3/src/transaction.c:8-134 | with fewer transferring transactions than slots every reachable state can be run until all transactions have ended |
| `BankFairness.FairRunsEnd` | lab_3/src/main.c:34-44 | liveness: with fewer transferring transactions than slots, any schedule made of as many fair rounds (enough ticks, then a turn for every thread, in any order and with anything in between) as there is work at the start ends with every transaction committed or aborted, so every join returns |
| `BankFairness.RoundWorks` | lab_3/src/timer.c:17-39 | every fair round brings an unfinished state strictly nearer to its end |
| `BankProgress.TickLowerBound` | lab_3/src/transaction.c:12-28 | under any interleaving with the timer: actual_start >= start_tick, and actual_end - actual_start >= wait_ticks + number of finished operations (all of them if committed, i if aborted at operation i) |
| `SchedQueues.EventQueue.Enqueue` | lab_2/schedsim-2/src/data-structures/event-queue.c:7-42 | the insertion loop puts the event behind every event not later, with the remaining-time tie-break when asked for |
| `SchedQueues.EventQueue.Dequeue` | lab_2/schedsim-2/src/data-structures/event-queue.c:44-51 | takes the first event off the list, or reports an empty list |
| `SchedQueues.EventQueue.PeekNextArrival` | lab_2/schedsim-2/src/data-structures/event-queue.c:65-72 | returns the first pending arrival, or none |
| `SchedQueues.EventQueue.RemoveEventForProcess` | lab_2/schedsim-2/src/data-structures/event-queue.c:74-92 | removes the first event of the process and nothing else; no change if it has none |
| `SchedQueues.FcfsQueue.Enqueue` | lab_2/schedsim-2/src/data-structures/fcfs-queue.c:20-31 | appends at the end of the line |
| `SchedQueues.FcfsQueue.Dequeue` | lab_2/schedsim-2/src/data-structures/fcfs-queue.c:33-46 | takes the head of the line, or reports an empty one |
| `SchedQueues.SjfQueue.Enqueue` | lab_2/schedsim-2/src/data-structures/sjf-queue.c:22-46 | the insertion loop puts the process behind everybody whose burst is not longer |
| `SchedQueues.SjfQueue.Dequeue` | lab_2/schedsim-2/src/data-structures/sjf-queue.c:48-60 | takes the head of the line, or reports an empty one |
| `SchedQueues.StcfQueue.Enqueue` | lab_2/schedsim-2/src/data-structures/stcf-queue.c:16-36 | the insertion loop puts the process behind everybody whose remaining time is not longer |
| `SchedQueues.StcfQueue.Dequeue` | lab_2/schedsim-2/src/data-structures/stcf-queue.c:38-48 | takes the head of the line, or reports an empty one |
| `SchedQueues.RrQueue.Enqueue` | lab_2/schedsim-2/src/data-structures/rr-queue.c:20-32 | a new arrival goes to the end of the pending list |
| `SchedQueues.RrQueue.Requeue` | lab_2/schedsim-2/src/data-structures/rr-queue.c:35-46 | a preempted process goes to the end of the round buffer |
| `SchedQueues.RrQueue.Dequeue` | lab_2/schedsim-2/src/data-structures/rr-queue.c:48-88 | serves active ++ round ++ pending in that order: an exhausted active list is refilled with the round buffer followed by the pending list |
| `SchedQueues.ProcessQueue.Enqueue` | lab_2/schedsim-2/includes/data-structures/process-queue-adt.h:6-11 | whichever queue the policy uses, `enqueue` does what the model's insertion does |
| `SchedQueues.ProcessQueue.Dequeue` | lab_2/schedsim-2/includes/data-structures/process-queue-adt.h:6-11 | whichever queue the policy uses, `dequeue` takes the model's head and leaves the model's rest |
| `SchedQueues.EmptyLength` | lab_2/schedsim-2/src/simulator.c:172 | the size counter the handlers test is zero exactly when dequeue would find nothing |
| `MlfqLists.Remove` | lab_2/schedsim-2/src/data-structures/mlfq-queue.c:79-110 | unlinks the first node holding the process, keeping head, tail and links right, or leaves the list alone |
| `MlfqLists.MlfqQueue.Enqueue` | lab_2/schedsim-2/src/data-structures/mlfq-queue.c:25-48 | on linked lists: appends at the process's level (top level when it has none), all other levels unchanged, size up by one |
| `MlfqLists.MlfqQueue.Dequeue` | lab_2/schedsim-2/src/data-structures/mlfq-queue.c:53-74 | on linked lists: takes the head of the best non-empty level, or reports that all are empty |
| `MlfqLists.MlfqQueue.MoveProcess` | lab_2/schedsim-2/src/data-structures/mlfq-queue.c:79-127 | on linked lists: the process leaves its old level if it is queued there, joins the end of the new one, and starts a fresh allotment; the size stays right in both cases |
| `MlfqLists.MlfqQueue.PriorityBoost` | lab_2/schedsim-2/src/data-structures/mlfq-queue.c:140-184 | on linked lists: the top level becomes the concatenation of all levels in order, the others empty, size unchanged, priority and allotment of exactly the queued processes reset: they leave at priority 0 with no time used |
| `MlfqLists.BoostKeepsOrder` | lab_2/schedsim-2/src/data-structures/mlfq-queue.c:140-184 | a boost leaves the order of service as it is |
| `SchedBoost.BoostLeavesEvent` | lab_2/schedsim-2/src/simulator.c:249-305 | a boost that finds a process running with work left leaves the event that was to end its slice: afterwards a process that waits has a pending event, or the running one has two |
| `SchedBoost.BoostServes` | lab_2/schedsim-2/src/simulator.c:249-305 | a boost that finds a process running with work left: that process joins the end of the line, all who are ready start over at the top level in the order of service, with priority and time used reset, and the first of them gets the CPU |
| `SchedBoost.BoostKeepsInvIff` | lab_2/schedsim-2/src/simulator.c:249-305 | the boost handler keeps the invariant of the runs iff it finds the CPU idle or the running process in its last slice |
| `MlfqLists.MoveFiled` | lab_2/schedsim-2/src/data-structures/mlfq-queue.c:79-127 | if every queued process stands once, at its own level, then after a move, of a queued or of the running process, that still holds and the moved process is queued exactly once |
| `MlfqLists.BoostFiled` | lab_2/schedsim-2/src/data-structures/mlfq-queue.c:140-184 | if every queued process stands once, at its own level, that still holds after a boost |
| `Simulator.Simulation.constructor` | lab_2/schedsim-2/src/simulator.c:69-77 | the initial event list holds one arrival per process, inserted in input order |
| `Simulator.Simulation.InitializeEvents` | lab_2/schedsim-2/src/simulator.c:69-77 | the loop over processes builds the event list by successive insertions |
| `Simulator.Simulation.ScheduleToEnd` | lab_2/schedsim-2/src/schedulers/first-come-first-serve.c:5-12 | FCFS and SJF grant all the remaining time and write start, finish, response, waiting and turnaround |
| `Simulator.Simulation.ScheduleStcf` | lab_2/schedsim-2/src/schedulers/shortest-time-completion-first.c:8-38 | grants the remaining time or the time to the next strictly later arrival, whichever is less |
| `Simulator.Simulation.ScheduleRr` | lab_2/schedsim-2/src/schedulers/round-robin.c:5-26 | grants one quantum, or all the remaining time when that is not more |
| `Simulator.Simulation.ScheduleMlfq` | lab_2/schedsim-2/src/schedulers/mlfq.c:14-54 | grants the quantum of the process's level, or all the remaining time when that is not more or the level has no quantum, and adds the grant to the time used at the level |
| `Simulator.Simulation.CheckDemotion` | lab_2/schedsim-2/src/schedulers/mlfq.c:60-88 | the running process moves one level down, and is queued there, iff its level has an allotment, it has used that up and the level is not the last |
| `Simulator.Simulation.HandleArrival` | lab_2/schedsim-2/src/simulator.c:109-160 | the in-place handler does what the model's arrival step does, in its three branches: idle CPU, STCF preemption, enqueue |
| `Simulator.Simulation.HandleCompletion` | lab_2/schedsim-2/src/simulator.c:163-194 | the in-place handler does what the model's completion step does |
| `Simulator.Simulation.HandleQuantumExpire` | lab_2/schedsim-2/src/simulator.c:196-247 | the in-place handler does what the model's expiry step does: demotion check, requeue by policy, next dispatch |
| `Simulator.Simulation.CalculateMetrics` | lab_2/schedsim-2/src/metrics.c:7-21 | every process gets turnaround = finish - arrival, waiting = turnaround - burst, response = start - arrival, and keeps the rest of its record |
| `Simulator.Simulation.Simulate` | lab_2/schedsim-2/src/simulator.c:27-67 | the event loop ends for all five policies; then each process has run exactly its burst; its response is the start of its first slice less its arrival, its turnaround the end of its last slice less its arrival, its waiting time the time it spent in the ready queue |
| `SchedInv.ServiceOrder` | lab_2/schedsim-2/src/data-structures/rr-queue.c:62-88 | every ready queue is served as one line: active ++ round ++ pending for round robin, the levels from best to worst for MLFQ |
| `SchedRun.StepInv` | lab_2/schedsim-2/src/simulator.c:109-247 | every event keeps the invariant that ties event list, ready queue, running process, clock and trace together, for all five policies |
| `SchedTheorems.EventAgreement` | lab_2/schedsim-2/src/simulator.c:34-53 | in every reachable state: events in order with the tie-break, no process has two, the one event that is no arrival is the running process's, due at the end of its slice and a completion iff no work is left; an idle CPU means nobody is ready |
| `SchedTheorems.OnePlace` | lab_2/schedsim-2/src/simulator.c:109-247 | in every reachable state each process is in exactly one of: arrival pending, ready (once), running, finished |
| `SchedTheorems.ClockMonotone` | lab_2/schedsim-2/src/simulator.c:34-36 | the clock never goes back |
| `SchedTheorems.OneCpu` | lab_2/schedsim-2/src/simulator.c:109-247 | slices are in time order, never overlap, never start before their process arrives, and add up to the work done |
| `SchedTheorems.Terminates` | lab_2/schedsim-2/src/simulator.c:34-53 | the loop handles at most two events per process plus one per unit of burst time |
| `SchedTheorems.AllFinished` | lab_2/schedsim-2/src/simulator.c:54-61 | an empty event list means that nobody runs, nobody is ready and every process has finished, so the closing safety net never fires |
| `SchedTheorems.Accounting` | lab_2/schedsim-2/src/metrics.c:7-21 | response is the start of the first slice in the trace less the arrival, turnaround the end of the last slice less the arrival, waiting the time spent in the ready queue and the turnaround less the burst, for every process and policy |
| `SchedTheorems.WrittenEarly` | lab_2/schedsim-2/src/schedulers/shortest-time-completion-first.c:8-38 | in every reachable state the turnaround and waiting times the policies write are already the ones reported at the end, as are the response times under FCFS, SJF and STCF; round robin leaves all three to the end, MLFQ the response |
| `SchedSlices.ArrivalPreemptsIff` | lab_2/schedsim-2/src/simulator.c:109-160 | every arrival in every run: it gets an idle CPU at once; it takes a busy one away iff the policy is STCF and its burst is strictly less than the work the running process will have left at the end of its slice; otherwise the slice goes on and the arrival is ready |
| `SchedSlices.RrSliceExact` | lab_2/schedsim-2/src/schedulers/round-robin.c:8-12 | every slice of every run is exactly one quantum, or shorter and its process has then done its burst, told by the trace alone |
| `SchedSlices.MlfqSliceExact` | lab_2/schedsim-2/src/schedulers/mlfq.c:24-35 | every slice of every run is exactly the quantum of the level it was run at, or shorter and its process has then done its burst; at a level without a quantum the latter |
| `SchedSlices.RunsToEndExact` | lab_2/schedsim-2/src/schedulers/first-come-first-serve.c:5-12 | FCFS and SJF: every slice runs its process to the end of its burst |
| `SchedSlices.StcfSliceExact` | lab_2/schedsim-2/src/schedulers/shortest-time-completion-first.c:14-29 | every slice of every run: with an arrival due at its start it runs to the end of the work; otherwise no arrival comes inside it, and if work is left an arrival comes exactly at its end |
| `SchedFcfs.FcfsRefinement` | lab_2/schedsim-2/src/schedulers/first-come-first-serve.c:5-12 | FCFS gives exactly start_k = max(arrival_k, finish_{k-1}), finish_k = start_k + burst_k over the stable order of arrival, ties and idle gaps included |
| `SchedFcfs.OrderIsStable` | lab_2/schedsim-2/src/simulator.c:30 | FCFS, round robin and MLFQ: arrivals are scheduled by arrival time and by input order on a tie |
| `SchedFcfs.OrderIsShortestFirst` | lab_2/schedsim-2/src/data-structures/event-queue.c:15-30 | SJF and STCF: arrivals are scheduled by arrival time, by burst on a tie, and by input order when both are equal |
| `SchedFcfs.StableOrderUnique` | lab_2/schedsim-2/src/data-structures/event-queue.c:27-30 | there is only one such order, so the recurrence fixes every start and finish time |
| `SchedSjf.SortedIsBest` | lab_2/schedsim-2/src/data-structures/sjf-queue.c:32-35 | exchange argument: running back to back by rising burst gives the least total waiting among all orders of the same processes |
| `SchedSjf.SjfOptimal` | lab_2/schedsim-2/src/simulator.c:109-194 | when all processes arrive together the total of the waiting times SJF reports is at most the total of running them back to back in any permutation |
| `SchedShortest.StcfRunsShortest` | lab_2/schedsim-2/src/simulator.c:133-156 | STCF, every reachable state: the running process's `remaining_time`, from which its whole slice has been taken already, is at most that of every ready process, so no preemption among them is overdue by the test the code makes |
| `SchedStcf.StcfDispatchesShortest` | lab_2/schedsim-2/src/schedulers/shortest-time-completion-first.c:14-37 | STCF, every dispatch of every run: nobody ready has less work left than the process that gets the CPU (remaining time plus the rest of the slice charged ahead) |
| `SchedStcf.StcfSliceIff` | lab_2/schedsim-2/src/schedulers/shortest-time-completion-first.c:17-29 | STCF, every slice: the running process has least work left until its slice ends iff at the dispatch no arrival pending inside the slice is shorter than what will then be left of it; if no arrival is due at the dispatch (the guard of the source) this holds |
| `SchedStcf.StcfPreemptiveIff` | lab_2/schedsim-2/src/simulator.c:133-156 | STCF is preemptive shortest-job-first in every state of a run iff no state of the run has such an arrival ahead |
| `SchedStcf.StcfCounterexample` | lab_2/schedsim-2/src/schedulers/shortest-time-completion-first.c:18-22 | it is not always: with bursts 10 and 20 arriving at 0 and burst 1 arriving at 5, at time 5 a process with one unit of work waits for one that has five left |
| `SchedStcf.StcfMinimalIfLonger` | lab_2/schedsim-2/src/schedulers/shortest-time-completion-first.c:14-37 | on workloads in which no process is shorter than one that arrives strictly before it, nobody ready ever has less work left than the running process |
| `SchedShortest.StcfCancelsDueEvents` | lab_2/schedsim-2/src/data-structures/event-queue.c:74-92 | STCF, every run: a preemption cancels the running process's only event, which is due at this very instant, and the arriving process starts at once, so charged time is elapsed time |
| `SchedShortest.ServesShortest` | lab_2/schedsim-2/src/data-structures/sjf-queue.c:48-60 | every reachable state: dequeue returns a process of least burst (SJF) or remaining time (STCF) among the ready ones, and of these the one that has been waiting longest |
| `SchedRoundRobin.ServeRank` | lab_2/schedsim-2/src/data-structures/rr-queue.c:62-88 | a dispatch of somebody else brings every ready process nearer in rank (position, plus active length and one while pending), pending ones by two |
| `SchedRoundRobin.RrBoundedWaiting` | lab_2/schedsim-2/src/schedulers/round-robin.c:5-26 | a ready process is dispatched within twice as many dispatches as there are ready processes, and within that many quanta, whatever arrives later |
| `SchedRounds.PreemptedPlace` | lab_2/schedsim-2/src/data-structures/rr-queue.c:62-72 | a process whose quantum has expired is queued before exactly those ready processes that have arrived since the round was opened |
| `SchedRounds.NobodyOvertakes` | lab_2/schedsim-2/src/data-structures/rr-queue.c:20-88 | round robin, every run: if x is ahead of y in the queue, then for as long as x is ready y is ready too, behind it |
| `SchedRounds.PreemptedServedFirst` | lab_2/schedsim-2/src/data-structures/rr-queue.c:62-72 | round robin, every run: whoever is preempted during a round is served before everybody who arrived during it |
| `SchedMlfq.NeverPromoted` | lab_2/schedsim-2/src/schedulers/mlfq.c:60-88 | without boosts no process ever moves to a better level |
| `SchedMlfq.LevelUseBounded` | lab_2/schedsim-2/src/schedulers/mlfq.c:60-88 | at a level that is not the last, with quantum q and allotment A, no process uses more than A - 1 + q units of CPU time, in any run |
| `SchedMlfq.DemotedOnlyWhenUsed` | lab_2/schedsim-2/src/schedulers/mlfq.c:60-88 | in every run, every level above a process's present one has an allotment and the trace gives the process at least that much CPU time there, so nobody is moved down early and no level is skipped |
| `SchedMlfq.ServesBestLevel` | lab_2/schedsim-2/src/data-structures/mlfq-queue.c:53-74 | every reachable state: dequeue returns a process of the best occupied level, and nobody at that level has been waiting longer |
| `SchedMlfq.Discipline` | lab_2/schedsim-2/src/data-structures/mlfq-queue.c:25-48 | every reachable state: queued processes stand at their own level in the order in which they joined it, and the time recorded as used at a level is the CPU time the trace gives there |
| `TickSystem.MinHeap.HeapifyUp` | lab_2/schedsim/src/minheap.c:16-36 | the in-place loop computes the model's sift up of the prefix and leaves the rest of the array alone |
| `TickSystem.MinHeap.HeapifyDown` | lab_2/schedsim/src/minheap.c:39-81 | the in-place loop computes the model's sift down of the live part |
| `TickSystem.MinHeap.Insert` | lab_2/schedsim/src/minheap.c:84-88 | in place: the live part becomes the model's insertion |
| `TickSystem.MinHeap.ExtractMin` | lab_2/schedsim/src/minheap.c:91-100 | in place: returns the root and leaves the model's extraction |
| `HeapModel.InsertKeepsHeap` | lab_2/schedsim/src/minheap.c:84-88 | insertion keeps the (burst, arrival) heap order and adds exactly the new index to the multiset |
| `HeapModel.ExtractKeepsHeap` | lab_2/schedsim/src/minheap.c:91-100 | extraction returns an index that no other in the heap precedes by (burst, arrival), keeps heap order and removes nothing else |
| `TickSjf.ArrivedMoves` | lab_2/schedsim/src/minheap_utils.c:20-27 | the scan with swap-with-last removal moves exactly the processes that have arrived, losing and duplicating none |
| `TickSystem.TickScheduler.CheckArrivals` | lab_2/schedsim/src/minheap_utils.c:7-27 | the in-place scan does what the model's scan does |
| `TickSystem.TickScheduler.TickOnce` | lab_2/schedsim/src/sjf.c:31-67 | one in-place iteration is one iteration of the model |
| `TickSystem.TickScheduler.ScheduleSjf` | lab_2/schedsim/src/sjf.c:11-88 | with positive bursts the loop ends; every process has been dispatched once, finishes a burst after its start, and every dispatch was greedy |
| `TickTheorems.EveryDispatchIsShortest` | lab_2/schedsim/src/sjf.c:31-51 | in every run, whatever the burst times, each dispatch is of a process never dispatched before that comes first by (burst, arrival) among all arrived and undispatched ones, at the later of its arrival and the end of the previous burst |
| `TickTheorems.EveryProcessServed` | lab_2/schedsim/src/sjf.c:54-67 | when the loop has ended every process has been dispatched exactly once and has run its whole burst without interruption |
| `TickTheorems.EndsIffPositive` | lab_2/schedsim/src/sjf.c:25-67 | the loop ends iff every burst is positive |
| `TickTheorems.NeverCompletes` | lab_2/schedsim/src/sjf.c:55-58 | while some process has a zero or negative burst, the completed count stays below the number of processes at every iteration |

## Left out

- Boost events in whole runs: run results are for MLFQ without boosts (`boost_period <= 0`), because the
  boost handler keeps the run invariant only in the cases `SchedBoost.BoostKeepsInvIff` gives. The handler
  is modelled there on states only, and the queue operation `mlfq_priority_boost` on linked lists.
- Simulator.Simulation.Simulate: leaves out printing and the Gantt table with its cap of 1024 entries; the
  trace of slices is a ghost sequence without a cap.
- Simulator.Simulation.InitializeEvents: leaves out the boost events, as above.
- SchedSjf.SjfOptimal: for processes that arrive together, which is where SJF is optimal; with different
  arrival times a non-preemptive SJF is not.
- BankDeadlock.DeadlockIff: for traces in which no transaction withdraws before its first transfer;
  otherwise reachability of a deadlock depends on balances and on which prefixes can be interleaved.
  `BankDeadlock.DeadlockReachable` is the sufficient half for every trace, `BankProgress.DeadlockFree` the
  other, and `BankProgress.DeadlockShape` the exact shape of a deadlock.
- SchedStcf.StcfMinimalIfLonger: one direction; the exact condition is on the run (`StcfPreemptiveIff`).
- BankLedger.NeverOverdrawn: assumes non-negative initial balances and amounts, which the parser does not
  enforce.
- BankSystem.System.ThreadStep: a critical section guarded by `tick_lock` or `pool_lock`, in which no thread
  ever blocks, is one step; reader-writer locks, the semaphore and condition waits have their standard
  blocking behaviour, without fairness or writer preference.
- BankSystem.System.LoadAccount: the slot's pointer to the account record is not modelled; nothing reads it.
- SchedQueues.FcfsQueue.Enqueue: the FCFS, SJF, STCF, round-robin and event lists are sequence fields
  that are reassigned, so pointer surgery is modelled only for the multi-level queue; processes are
  identified by their index in the process table.
- Machine integers: balances, times and counters are mathematical integers, so C overflow is not captured;
  neither are `malloc` failure and `free`.
- Quanta and allotments other than -1 or positive numbers and, in the event-driven scheduler, negative
  arrival times and bursts: the configuration readers are not part of this model.
- Input parsing, command lines, printed logs and averages, and `compare.c`: input and output only.
- `lab_1` and the other schedulers of `lab_2/schedsim`: shell plumbing, and weaker duplicates with
  unresolved merges.
