# Models of a scheduling simulator, a block file system and an archive program

This project models three programs of the repository in Dafny and proves what they are for.

**The multi-CPU scheduling simulator** (`Planificacion/schedsim`, modules `Sched*`, `Slist`, `ListHead`, `StableSort`,
`Sequences`). Each CPU is a thread that ticks, fires events, balances, schedules and meets the others at two barriers.
`SchedSteps` says what each lock-protected section does, as functions on values; the classes of `SchedMachine` and
`SchedMain` update tasks, run queues and event lists in place and are proved to compute those functions. `SchedRuns`
lets the sections of all CPUs interleave in any order between barriers, with the loads of the balancer arbitrarily out
of date; `SchedKeeps` proves one invariant for every section, and `SchedTheorems`, `SchedSlices` and `SchedPreempt`
draw the results that hold in every run; `SchedLog` is about the registers of the Gantt chart. `SchedOrders` says field by
field what the sorted classes promise, `SchedFifo` in which order FCFS and RR serve, `SchedQuantum` what a slice counts, and
`SchedBalancing` what a call of the balancer achieves. `SchedHistory` records the enqueues of a run beside it, `SchedFlags` says when
the flag `TF_INSERT_FRONT` is set, `SchedTies` in which order equal tasks wait, and `SchedWitnesses` gives two concrete
runs. `SchedMakespan` bounds when all tasks are complete on any number of CPUs. `SchedBarrier` is the protocol of the
loop and the two barriers, `SchedEnds` its termination, `SchedLocks` the protocol of the run queue locks. `SchedOneCpu`,
`SchedRoundRobin` and `SchedSolo` give the time bounds on one CPU. `ListHead` and `Slist` are the intrusive circular
lists on heap objects, with the stable sort; the run queues of `SchedMachine` are sequences of task positions and do not
use them.

**The block file system** (`myFUSE`, modules `Fs*`). The disk is a set of typed regions and an array of data blocks.
`FsSpec`, `FsWrite`, `FsDirectory` and `FsMount` say what the operations do; `FsMachine` is the same with the bitmap,
the inode table and the block buffers updated in place by the loops of the source. `FsInvariant` is the invariant of
allocator, directory, inodes and disk copies. `FsRefinement` proves that every run from a fresh disk, with any number of
remounts, behaves as a map from names to bytes, `FsReading` what reads show of that map, and `FsAttributes` what the map
does not show.

**The archive program** (`myTAR`, modules `Tar*`). `TarSpec` is what is written and read, `TarMachine` the streams
whose positions advance, `TarRoundTrip` when extraction gives back what was stored, and `TarFormat` the layout of an
archive and the failures of both commands.

Where a promise does not hold of the code, the exact condition is proved:

* `my_read` advances the offset by the index at which its inner loop stopped. `FsWrite.ReadExactly` shows that it is
  right for all contents exactly when the offset is block-aligned or the request stays inside one block.
* `createTar` reserves 4 + 16 n bytes for a header whose size depends on the names. `TarRoundTrip.FitsExactly` shows
  that archives are right for all contents exactly when the header fits.
* `copynFile` keeps the result of `getc` in a `char`; `TarRoundTrip.WholeFile` shows that a file survives exactly when
  it has no byte 0xFF.
* `my_read` never looks at the size of the file, so a request that crosses its end returns as many bytes as were asked
  for, and bytes that a truncation has cut off come back (`FsReading.CutBytesComeBack`). `FsReading.ReadRefines` gives
  the exact condition under which reading refines the map, and `FsReading.MapDecides` when the map decides the answer.
* The longest-first classes queue long tasks first but preempt for shorter ones, and a longer newcomer requests nothing:
  `SchedWitnesses.LongerTaskWaits` is a run in which a longer task waits. `SchedPreempt.BestRunsAfterSchedule` says
  exactly when the longest task runs after `schedule`, and `RequestOutcome` and `PreemptionKeepsLonger` which
  preemptions change the running task: a preemption never brings in the shorter newcomer that caused it.
* The flag that puts a preempted task ahead of its equals is also given to a current task that has just gone to sleep
  (`SchedWitnesses.SleeperJumpsAhead`). `SchedTies.FairExactly` gives the exact condition under which ties are served in
  order of arrival except for preempted tasks; it concerns preemptive PRIO only (`SchedTies.FairWithoutPriorities`).
* The comment of `my_write` promises 0 on success and that of `extractTar` EXIT_FAILURE on error; the model follows the
  code, which returns the size written and -1.

## Assumptions

* Phases have length at least 1 and there are at most 10 of them, CPU and I/O phases alternating from a CPU phase;
  `rr_quantum` and `load_balancing_period` are at least 1.
* All CPUs pass an implicit barrier before step 0: each has fired the events of step 0 and made its first pick before
  any CPU ticks. The source has no barrier there; only the delay before the first tick of a thread orders them.
* A barrier releases its threads when all of them have arrived, as `pthread_barrier_wait` in chapter 3 of the System
  Interfaces volume of IEEE Std 1003.1-2017.
* Disk input and output inside the disk succeeds, and no file is given more than 100 blocks, which the code does not
  test. Time stamps, uninitialised memory (`junk`, `tipos`) and the previous contents of the backup file are parameters.
* LP64 sizes: an inode has 432 bytes, a header entry 16; `char` is signed; integers are written least significant byte
  first. File names are C strings.

## Model

| member | source | states |
|---|---|---|
| `ListHead.ListInsert` | Planificacion/schedsim/list.h:79-88 | the new link and its two neighbours point at each other; when the neighbours differ, their outer links are untouched |
| `ListHead.ListAdd` | Planificacion/schedsim/list.h:97-100 | insertion right behind a link, in both directions |
| `ListHead.ListAddTail` | Planificacion/schedsim/list.h:110-113 | insertion right in front of a link, in both directions |
| `ListHead.ListDel` | Planificacion/schedsim/list.h:123-140 | the neighbours are joined in both directions and the removed link has none, its own neighbour or not |
| `Slist.Slist.Insert` | Planificacion/schedsim/slist.c:13-18 | on the heap: the ring stays a well-formed circle, `size` stays the length, and the sequence of links grows at its end |
| `Slist.Slist.InsertHead` | Planificacion/schedsim/slist.c:20-25 | the same at the front |
| `Slist.Slist.Remove` | Planificacion/schedsim/slist.c:27-32 | the circle and `size` are kept; exactly the given link disappears from the sequence |
| `Slist.Slist.Next` | Planificacion/schedsim/slist.c:60-75 | the successor in the sequence, or null at the end |
| `Slist.Slist.Prev` | Planificacion/schedsim/slist.c:77-92 | the predecessor in the sequence, or null at the front |
| `Slist.Slist.InsertAfter` | Planificacion/schedsim/slist.c:94-105 | the new link follows the given one, or comes first when none is given |
| `Slist.Slist.InsertBefore` | Planificacion/schedsim/slist.c:107-118 | the new link precedes the given one, or comes last when none is given |
| `Slist.Slist.SortedInsert` | Planificacion/schedsim/slist.c:120-160 | the new link goes to the first place where the search stops, with and without the `front` variant |
| `Slist.Slist.Select` | Planificacion/schedsim/slist.c:170-185 | the selected link is the first among the best of the rest of the list |
| `Slist.Slist.Sort` | Planificacion/schedsim/slist.c:162-200 | `sort_slist` on the pointers: the result is in order, every key keeps its links in their old order, the ring is well-formed and `size` is the length |
| `StableSort.RearrangedIsPermutation` | Planificacion/schedsim/slist.c:162-200 | a stable rearrangement is a permutation |
| `StableSort.StableSortUnique` | Planificacion/schedsim/slist.c:162-200 | two ordered stable rearrangements of the same list are equal, so the sort has exactly one possible result |
| `Slist.MoveLemma` | Planificacion/schedsim/slist.c:176-196 | one turn of the sort: moving the first best element ahead of the unsorted rest lengthens the sorted prefix and is stable |
| `Sequences.InsertPos` | Planificacion/schedsim/slist.c:120-160 | the place of a sorted insertion is the first one where the comparison stops the search |
| `Sequences.InsertKeepsOrder` | Planificacion/schedsim/slist.c:120-160 | sorted insertion keeps the order in both directions; among equals the new element is last, or first in the `front` variant |
| `SchedMachine.TaskDesc.AddLogRegister` | Planificacion/schedsim/sched.c:169-190 | registers of length 0 are dropped and a register of the same state and CPU is extended, as the function on values says |
| `SchedMachine.TaskDesc.ChargeTick` | Planificacion/schedsim/sched.c:484-495 | what a tick charges to the current task |
| `SchedMachine.TaskDesc.LeaveCpu` | Planificacion/schedsim/sched.c:501-522 | a task that has used up its phase completes, or is charged its I/O phase in advance |
| `SchedMachine.TaskDesc.ChargeMigration` | Planificacion/schedsim/sched.c:547-554 | the ready time that a migration charges |
| `SchedMachine.TaskDesc.StartRunning` | Planificacion/schedsim/sched.c:689-694 | the ready time that a context switch charges |
| `SchedMachine.Machine.EnqueueFifo` | Planificacion/schedsim/sched_rr.c:43-52 | `enqueue_task` of FCFS and RR: at the tail, with a fresh slice in RR |
| `SchedMachine.Machine.EnqueueSorted` | Planificacion/schedsim/sched_sjf.c:21-45 | `enqueue_task` of the sorted classes: sorted insertion by the class key, then the preemption test |
| `SchedMachine.Machine.PreemptionTest` | Planificacion/schedsim/sched_prio.c:35-43 | a better newcomer requests a reschedule and marks the current task to be put ahead of its equals |
| `SchedMachine.Machine.DoEnqueueTask` | Planificacion/schedsim/sched.c:392-402 | enqueueing with the counter `nr_runnable` and the last CPU |
| `SchedMachine.Machine.InsertSchedEvent` | Planificacion/schedsim/sched.c:885-919 | events are inserted in timeout order |
| `SchedMachine.Machine.SchedulerTick` | Planificacion/schedsim/sched.c:474-529 | the whole tick, including the end of a phase, takes the machine to the state given by the step function |
| `SchedMachine.Machine.FinishPhaseOf` | Planificacion/schedsim/sched.c:495-525 | the end of a phase: counter, reschedule request, completion or sleep with its wake-up event |
| `SchedMachine.Machine.FireEvent` | Planificacion/schedsim/sched.c:415-467 | one event: a new task or a wake-up becomes runnable, or completes |
| `SchedMachine.Machine.ProcessSchedEvents` | Planificacion/schedsim/sched.c:409-471 | all due events fire, in order, and their number is returned |
| `SchedMachine.Machine.StealTask` | Planificacion/schedsim/sched_fcfs.c:30-39 | the stolen task is the tail of the queue; none is stolen from an empty one |
| `SchedMachine.Machine.MoveTask` | Planificacion/schedsim/sched.c:535-555 | a migration: source counter, destination queue, charged ready time |
| `SchedMachine.Machine.ScheduleCpu` | Planificacion/schedsim/sched.c:655-705 | requeueing, picking, the context switch and the cleared flag |
| `SchedMachine.Machine.ComputeLoads` | Planificacion/schedsim/sched.c:587-605 | the loads read are the counters, and the CPUs of largest and smallest load are the first ones |
| `SchedMachine.Machine.RecheckAndMove` | Planificacion/schedsim/sched.c:619-620 | the recheck decides on the current counters whether a task moves |
| `SchedMachine.Machine.RunTrials` | Planificacion/schedsim/sched.c:583-642 | the trials of the balancer, at most five and until the loads are balanced |
| `SchedMachine.Machine.LoadBalanceCpu` | Planificacion/schedsim/sched.c:561-648 | a whole call of the balancer |
| `SchedMachine.Machine.FirstPickOf` | Planificacion/schedsim/sched.c:758-772 | the first pick of a CPU |
| `SchedMain.SchedStart` | Planificacion/schedsim/sched.c:806-841 | the machine before the threads start: tasks dealt out to the CPUs in turn and their arrival events queued |
| `SchedMain.SoloTurn` | Planificacion/schedsim/sched.c:774-795 | one turn of the loop with one CPU is one round of the specification, and the status it publishes |
| `SchedMain.SchedCpuSolo` | Planificacion/schedsim/sched.c:744-799 | the loop with one CPU: its state after k turns; it stops after the first step that leaves the CPU complete, or else at the step limit; and every task has completed if the limit is at least max(arrival) plus the sum of all phases |
| `SchedClocks.AddLogKeeps` | Planificacion/schedsim/sched.c:169-190 | appending a register where the log ends keeps the registers a tiling, although merging does not check contiguity, and adds the length to the right state only |
| `SchedClocks.TilesAddUp` | Planificacion/schedsim/sched.c:169-190 | the logged CPU, I/O and ready times add up to the length of the tiled interval |
| `SchedClocks.TilesCover` | Planificacion/schedsim/sched.c:169-190 | an instant is in some register exactly when it is in the tiled interval, and in no more than one |
| `SchedKeeps.TickKeeps` | Planificacion/schedsim/sched.c:474-529 | a tick keeps the system invariant |
| `SchedKeeps.FireKeeps` | Planificacion/schedsim/sched.c:415-467 | an event keeps the system invariant and never meets a critical error |
| `SchedKeeps.StealFinds` | Planificacion/schedsim/sched.c:535-545 | when the recheck of the balancer holds, the source queue is not empty, so `steal_task` never returns NULL |
| `SchedKeeps.RebalanceKeeps` | Planificacion/schedsim/sched.c:619-620 | a migration keeps the system invariant |
| `SchedKeeps.ScheduleKeeps` | Planificacion/schedsim/sched.c:655-705 | the scheduler keeps the system invariant |
| `SchedRuns.StepKeeps` | Planificacion/schedsim/sched.c:774-795 | every lock-protected section of every CPU, in any order, keeps the invariant, and completed tasks are frozen |
| `SchedTheorems.TimesAddUp` | Planificacion/schedsim/sched.c:484-523 | in every interleaved run of n CPUs, a completed task has `real_time` equal to completion minus arrival and to `user_time` + `sys_time` + ready time, and these are the sums of its CPU and I/O phases |
| `SchedTheorems.LogTilesLifetime` | Planificacion/schedsim/sched.c:169-190 | in every run the registers of a completed task cover exactly [arrival, completion), every instant once |
| `SchedLog.LogRemembers` | Planificacion/schedsim/sched.c:169-190 | in every run, at any later time, the log of a task shows for each instant whether it ran, slept or waited then, and on which CPU: what each tick, `schedule` and migration did is recorded and never lost |
| `SchedLog.LogIsCompact` | Planificacion/schedsim/sched.c:178-189 | in every run neighbouring registers of a task differ in state or CPU |
| `SchedTheorems.BootIs` | Planificacion/schedsim/sched.c:817-832 | the start: task x belongs to CPU x mod n and only its arrival is pending, arrivals of the same time in the order of the task file, and CPU c balances first at step c |
| `SchedTheorems.EventPlaced` | Planificacion/schedsim/sched.c:885-895 | a new event goes behind all that are due no later and ahead of all that are due later |
| `SchedTheorems.TasksConserved` | Planificacion/schedsim/sched.c:392-402 | in every run an unfinished task is in exactly one event list, run queue or processor slot, once; a finished one in none; and `nr_runnable` counts the queue and the running task |
| `SchedTheorems.NoWakeUpLost` | Planificacion/schedsim/sched.c:375-385 | in every run event lists are sorted and lie after the last step processed, each event is at the end of what its task has been charged, phases alternate with states, and no critical error is reached |
| `SchedTheorems.BalancingOnTime` | Planificacion/schedsim/sched.c:574-581 | in every run the next balancing of a CPU never falls behind the current step |
| `SchedTheorems.TrialMakesProgress` | Planificacion/schedsim/sched.c:585-642 | for arbitrary stale loads, a trial changes nothing or conserves the total load and strictly decreases the sum of the squares |
| `SchedBalance.MaxLoadCpu` | Planificacion/schedsim/sched.c:592-599 | the first CPU of largest load |
| `SchedBalance.MinLoadCpu` | Planificacion/schedsim/sched.c:601-604 | the first CPU of smallest load |
| `SchedBalance.RemoteIsNotLocal` | Planificacion/schedsim/sched.c:607-635 | whatever loads were read, the remote CPU is not the local one and its load differs by at least two; the system is taken as balanced exactly when all loads are within one of each other |
| `SchedBalance.ChoiceIs` | Planificacion/schedsim/sched.c:607-636 | the decision of a trial, from the loads alone: level loads are left alone; a CPU with the highest load pushes to the first with the lowest; otherwise one with the lowest load pulls from the first with the highest; nothing is done only if some load is above and some below |
| `SchedBalance.RebalanceProgress` | Planificacion/schedsim/sched.c:619-620 | the recheck decides: total load conserved, squares strictly smaller, and the tail of the source queue is on the destination; otherwise nothing changes |
| `SchedBalancing.UndisturbedCall` | Planificacion/schedsim/sched.c:561-648 | a whole call that nobody disturbs: a CPU that is neither idle nor due does nothing; any other is due again one period later, the total load is the same, and a CPU at the top of unlevel loads has given away, or one at the bottom has got, between one and five tasks: five, unless the loads are level or it has left its end |
| `SchedBalancing.IdleCpuGetsWork` | Planificacion/schedsim/sched.c:574-581 | after an undisturbed call on an idle CPU, if some CPU had at least two runnable tasks, it has at least one, and the total is the same |
| `SchedBalancing.FreshTrial` | Planificacion/schedsim/sched.c:585-642 | in every run, a trial that has read the actual loads ends the call if they are level; otherwise it moves exactly one task from a CPU at the top to one at the bottom if this CPU is at either end, and nothing if it is not |
| `SchedBalancing.BalancesWhenDue` | Planificacion/schedsim/sched.c:574-581 | in every run a CPU balances exactly if there are several and it is idle or due, and when it has finished it is due one period later |
| `SchedBarrier.MoveKeeps` | Planificacion/schedsim/sched.c:717-740 | every move of the barrier protocol keeps its invariant |
| `SchedBarrier.ThreadsLeaveTogether` | Planificacion/schedsim/sched.c:774-795 | when one thread has left the loop, every other one has left it too or is at its loop test in the same step and will leave |
| `SchedBarrier.CounterMeansComplete` | Planificacion/schedsim/sched.c:707-740 | leaving with the counter at `nr_cpus` means that all run queues and event lists are empty and all tasks complete |
| `SchedBarrier.CompletedExactly` | Planificacion/schedsim/sched.c:707-710 | in every run `cpu_has_completed` holds exactly if no unfinished task belongs to the CPU |
| `SchedBarrier.CounterTellsExactly` | Planificacion/schedsim/sched.c:717-740 | when all threads are at the loop test after the second barrier, the counter is at `nr_cpus` if and only if every CPU has completed |
| `SchedBarrier.StopsWhenComplete` | Planificacion/schedsim/sched.c:774-795 | if every CPU has completed when the threads are at the loop test after a step, no thread enters the loop body again and nothing changes any more |
| `SchedBarrier.SomeThreadMoves` | Planificacion/schedsim/sched.c:717-740 | no thread is stranded at a barrier: until all have left, some thread can move |
| `SchedLocks.LockOrder` | Planificacion/schedsim/sched.c:64-79 | a thread that waits for a run queue lock while holding another waits for a strictly lower one; past `double_lock_rq` it owns both |
| `SchedLocks.NoWaitCycle` | Planificacion/schedsim/sched.c:572-647 | no reachable state has a cycle of threads waiting for each other's locks |
| `SchedLocks.NoDeadlock` | Planificacion/schedsim/sched.c:572-647 | while some thread holds or wants a lock, some such thread can go on |
| `SchedOneCpu.BoundedMakespan` | Planificacion/schedsim/sched.c:774-795 | on one CPU, for every class, all tasks are complete after max(arrival) plus the sum of all phase lengths |
| `SchedOneCpu.LoopEnds` | Planificacion/schedsim/sched.c:774-795 | however the loop of one CPU ends, a step limit of at least that bound means that all tasks are complete |
| `SchedSolo.RoundsAreRuns` | Planificacion/schedsim/sched.c:744-799 | the loop of one CPU is a run of the interleaved model |
| `SchedSolo.TurnaroundBounded` | Planificacion/schedsim/sched.c:774-795 | on one CPU every task ends within the bound and its real time is its phases plus its ready time |
| `SchedSlices.SliceBounds` | Planificacion/schedsim/sched_rr.c:43-66 | in every run of RR and TJFEX the running task has between 1 tick and a quantum left at the start of a step and after `schedule`, and queued tasks have a whole quantum |
| `SchedQuantum.WholeSlices` | Planificacion/schedsim/sched_rr.c:43-52 | in every run the slice of a waiting task is `rr_quantum` under RR and 3 under TJFEX |
| `SchedQuantum.SliceCounts` | Planificacion/schedsim/sched_rr.c:43-66 | in every run of RR and TJFEX on n CPUs, the slice of a running task is the quantum less the ticks that it has run since it was last enqueued |
| `SchedQuantum.QuantumUsed` | Planificacion/schedsim/sched_rr.c:54-66 | in every run of RR on n CPUs, `schedule` takes the processor from a task that can go on exactly when it has run `rr_quantum` ticks since it was last enqueued; then it goes to the end of the queue and the first one runs |
| `SchedFifo.FirstComeFirstServed` | Planificacion/schedsim/sched_fcfs.c:21-28 | in every run of FCFS and RR on n CPUs, of two tasks on a queue the one in front was enqueued first, and the running task before all of them |
| `SchedFifo.FcfsSchedule` | Planificacion/schedsim/sched_fcfs.c:21-28 | in every run of FCFS a running task is never replaced, and `schedule` brings in the waiting task that was enqueued first |
| `SchedFifo.RrRotates` | Planificacion/schedsim/sched_rr.c:32-52 | in every run of RR a requested `schedule` puts the running task at the end of the queue and brings in the first one |
| `SchedRoundRobin.StarvationBound` | Planificacion/schedsim/sched_rr.c:43-66 | on one CPU a task with k tasks ahead of it is dispatched within (k + 1) * `rr_quantum` ticks |
| `SchedPreempt.NoBetterTaskWaits` | Planificacion/schedsim/sched_sjf.c:14-45 | in every run the queues of the sorted classes stay sorted, and under preemptive SJF and PRIO no queued task is better than the running one unless a reschedule is pending |
| `SchedOrders.QueuesInOrder` | Planificacion/schedsim/sched_sjf.c:21-32 | in every run, by field: a queue of SJF has the fewest ticks left first, one of PRIO the smallest priority, one of TJF or TJFEX the most ticks left |
| `SchedOrders.NoneWaitsUnnoticed` | Planificacion/schedsim/sched_sjf.c:34-44 | in every run of preemptive SJF and PRIO, by field: with no reschedule pending no waiting task has fewer ticks left, or a smaller priority, than the running one |
| `SchedOrders.FirstRunsAfterSchedule` | Planificacion/schedsim/sched.c:664-701 | in every run, by field: after a requested `schedule` the running task has at most the ticks (SJF), at most the priority (PRIO), at least the ticks (TJF, TJFEX) of every waiting one |
| `SchedOrders.WhoYields` | Planificacion/schedsim/sched.c:664-701 | in every run, by field: a requested `schedule` changes the running task exactly if the first waiting one has fewer ticks (SJF), a smaller priority (PRIO), more ticks (TJF, TJFEX), or as many and the running one lacks the flag |
| `SchedOrders.WhenPreempted` | Planificacion/schedsim/sched_prio.c:34-43 | the preemption test of all six classes by field, the idle task having priority 0 and no ticks: exactly when a reschedule is requested and the current task gets the flag |
| `SchedPreempt.BestRunsAfterSchedule` | Planificacion/schedsim/sched.c:655-705 | in every run of a sorted class no waiting task is better than the running one after `schedule` (longer, under TJF and TJFEX) if and only if a reschedule had been requested, or no task was running, or the head of the queue was not better than the running task |
| `SchedPreempt.RequestOutcome` | Planificacion/schedsim/sched.c:664-701 | which requests change the running task: it goes on exactly if nothing waits, or it is better than the head, or it is its equal and has the flag; otherwise the head runs |
| `SchedPreempt.PreemptionKeepsLonger` | Planificacion/schedsim/sched_tjf.c:36-45 | under TJF and TJFEX a request never brings in a task that is shorter than the running one, so not the newcomer that preempted it, and a preempted task goes on unless the head is strictly longer |
| `SchedWitnesses.LongerTaskWaits` | Planificacion/schedsim/sched_tjf.c:36-45 | a run of preemptive TJF in which a task with five ticks waits after `schedule` while one with two ticks runs |
| `SchedTies.FlagMeansBeaten` | Planificacion/schedsim/sched_prio.c:35-43 | in every run the flag of a task is set exactly when a strictly better task has been enqueued on the CPU whose current task it was, since its own last enqueue |
| `SchedTies.TiesAreOrdered` | Planificacion/schedsim/slist.c:120-160 | in every run, of two equal tasks on a queue the one enqueued later is behind, unless its enqueue carried the flag: exactly then it is ahead |
| `SchedTies.FairSoFar` | Planificacion/schedsim/sched_prio.c:21-45 | at every point of every run, the enqueues that carried the flag have been exactly those of preempted tasks, if and only if no task has been enqueued after it was beaten while it was asleep, complete or about to end its phase |
| `SchedTies.FairExactly` | Planificacion/schedsim/sched_prio.c:21-45 | for every complete run: ties were served in order of arrival, preempted tasks excepted, if and only if no better task was ever enqueued on a CPU whose current task was not going to be put back (asleep, complete, or in its last tick) and had another CPU phase |
| `SchedTies.FairWithoutPriorities` | Planificacion/schedsim/sched_sjf.c:21-45 | ties are fair in every run of SJF, TJF and TJFEX, and of every sorted class without preemption |
| `SchedWitnesses.SleeperJumpsAhead` | Planificacion/schedsim/sched_prio.c:35-43 | a run of preemptive PRIO in which a task that was asleep, and never preempted, goes ahead of an equal that has waited longer |
| `SchedMakespan.StepLeft` | Planificacion/schedsim/sched.c:474-529 | the work that a task still needs changes in its own CPU's tick only, and there by one if it runs or sleeps |
| `SchedMakespan.StepStaffed` | Planificacion/schedsim/sched.c:607-635 | in every run, whenever tasks wait for an idle CPU, another CPU runs a task or is on its way to, so the balancer never leaves all CPUs idle |
| `SchedMakespan.AllDoneInTime` | Planificacion/schedsim/sched.c:774-795 | in every run of n CPUs, whatever the class, the interleaving and the stale loads, every task is complete when step max(arrival) + (sum of all phases) begins, and queues, processors and event lists are empty |
| `SchedEnds.MoveDecreases` | Planificacion/schedsim/sched.c:774-795 | every move of every thread decreases one measure of the whole simulation |
| `SchedEnds.EveryRunEnds` | Planificacion/schedsim/sched.c:717-740 | the number of moves of a run is bounded from the start, and when no thread can move any more all have left the loop |
| `SchedEnds.ExitMeansComplete` | Planificacion/schedsim/sched.c:774-795 | with n CPUs and a step limit of at least that bound, every task is complete when any thread leaves the loop, whichever exit condition it found |
| `FsTypes.NodeSlots` | myFUSE/src/myFS.c:57-68 | the inode slots are disjoint, stay inside blocks 3 to 7 and do not cross a block |
| `FsInvariant.AllocCollects` | myFUSE/src/fuseLib.c:67-81 | if enough bits of the disk are zero, the unbounded first-fit loop ends inside the disk with free, ascending, now marked and zeroed blocks, changing nothing else; the zero count drops by their number |
| `FsInvariant.FreeLoopEffect` | myFUSE/src/fuseLib.c:92-100 | the freed blocks are unmarked and hold zeros, nothing else changes, and the zero count rises by their number |
| `FsAttributes.GrowFirstFit` | myFUSE/src/fuseLib.c:63-81 | a file that grows keeps its blocks and gets the first free ones: no free block below one of them is passed over |
| `FsAttributes.ShrinkCleans` | myFUSE/src/fuseLib.c:86-103 | every block that a file gives up is unmarked in memory and on disk and holds zeros |
| `FsAttributes.RefusedClears` | myFUSE/src/fuseLib.c:33-64 | a growth that is refused has still cleared the last block behind the end of the file, and nothing else |
| `FsAttributes.ResizeStamps` | myFUSE/src/fuseLib.c:22-114 | resizing keeps the type of the file and sets its time exactly if its size changes |
| `FsAttributes.WriteStamps` | myFUSE/src/fuseLib.c:336-381 | a write keeps the type of the file, and sets its time exactly if it succeeds |
| `FsAttributes.CreateUses` | myFUSE/src/fuseLib.c:581-636 | a created file gets the first free inode, the first free directory entry, the type of the call and its time |
| `FsAttributes.MkfsFields` | myFUSE/src/myFS.c:118-190 | the fields of the superblock of a new file system, on disk and in memory |
| `FsAccounts.FreeBlocksAccounted` | myFUSE/src/fuseLib.c:63-68 | the counter of free blocks plus the blocks of all inodes is the number of data blocks |
| `FsResize.GrowOk` | myFUSE/src/fuseLib.c:33-85 | growing with enough free blocks extends the file with zeros, keeps the invariant and every other file |
| `FsResize.GrowRefused` | myFUSE/src/fuseLib.c:62-64 | a growth refused for lack of space leaves all contents, the counter and the bitmap as they were, although the tail of the last block was rewritten |
| `FsResize.ShrinkOk` | myFUSE/src/fuseLib.c:86-103 | shrinking cuts the file, gives the blocks back and keeps every other file |
| `FsResize.ResizeOk` | myFUSE/src/fuseLib.c:22-114 | `resizeNode` succeeds exactly when the free blocks suffice; then the file is its old contents cut or zero-extended, else no file changes |
| `FsWrite.WriteLoopEffect` | myFUSE/src/fuseLib.c:348-372 | the loop stores the buffer at the offset and changes no other byte of the file and no other block |
| `FsWrite.WriteOk` | myFUSE/src/fuseLib.c:336-381 | a write makes the file its old first `offset` bytes, zero-extended, followed by the buffer (a longer file is cut), or fails without changing any file, exactly when blocks lack |
| `FsWrite.WritesConcatenate` | myFUSE/src/fuseLib.c:345-371 | back-to-back writes of any chunk sizes all succeed exactly when there is room for the final size, and then store the concatenation of the chunks |
| `FsWrite.ReadExactly` | myFUSE/src/fuseLib.c:516-536 | within the allocated blocks, `my_read` returns the requested bytes for every contents of the disk if and only if the offset is block-aligned or the request stays in one block |
| `FsWrite.ReadWrong` | myFUSE/src/fuseLib.c:533-535 | for every other request, a disk on which `my_read` returns other bytes |
| `FsDirectory.FindFile` | myFUSE/src/myFS.c:22-33 | the first entry in use with that name, or -1 if there is none |
| `FsDirectory.FindFreeFile` | myFUSE/src/myFS.c:35-44 | the first free entry, or -1 if there is none |
| `FsDirectory.FindFreeNode` | myFUSE/src/myFS.c:46-55 | the first free inode, or -1 if there is none |
| `FsDirectory.NamesCounted` | myFUSE/src/fuseLib.c:453-458 | with distinct names, the redundant `numFiles` counts the names |
| `FsDirectory.RoomForFile` | myFUSE/src/fuseLib.c:434-451 | while an inode is free so is a directory entry, so the two searches succeed and the entry test never fails |
| `FsDirectory.CreateOk` | myFUSE/src/fuseLib.c:422-477 | what `my_mknod` and `my_mkdir` return in terms of the names alone, and that they add exactly an empty file |
| `FsMount.MkfsOk` | myFUSE/src/myFS.c:118-190 | a disk can be formatted exactly when it has 9 to 1023 blocks, fewer give -1 and more -2; then it holds no file and all but 8 blocks are free, whatever the backup file held before and however long it was |
| `FsMount.MountRecovers` | myFUSE/src/myFS.c:364-396 | mounting rebuilds bitmap, free count, directory, free-inode count and every inode but `tipo`, and the same file contents |
| `FsRefinement.StepRefines` | myFUSE/src/fuseLib.c:422-501 | every call keeps the invariant of allocator, directory and disk, and returns and does what the map from names to bytes does |
| `FsRefinement.RunRefines` | myFUSE/src/fuseLib.c:336-501 | every run of calls from a fresh disk, remounts included, refines the map from names to bytes with its return codes and free count |
| `FsRefinement.MountAfterRun` | myFUSE/src/myFS.c:364-396 | after any run, mounting the disk in a new process gives the same state up to `tipo` |
| `FsRefinement.TruncationsExposeZeros` | myFUSE/src/fuseLib.c:486-501 | after any series of truncations the map gives the file its old bytes below the smallest size and zeros above |
| `FsReading.ReadsExactly` | myFUSE/src/fuseLib.c:503-545 | for any offset and size, `my_read` gives the requested part of a file for every contents of the disk if and only if nothing is requested, or the request stays inside the file and is block-aligned or inside one block |
| `FsReading.ReadRefines` | myFUSE/src/fuseLib.c:503-545 | the same by name: reading refines the map on every disk with these inodes if and only if that condition holds |
| `FsReading.MapDecides` | myFUSE/src/fuseLib.c:516-536 | for a readable request inside the blocks of a file, all states with the same map give the same answer if and only if the request stays inside the file |
| `FsReading.CutBytesComeBack` | myFUSE/src/fuseLib.c:86-103 | after a shrink, a readable request inside the blocks that were kept still returns the old bytes, those that were cut off included |
| `FsReading.HundredBytesComeBack` | myFUSE/src/fuseLib.c:516-544 | a file of 100 bytes cut to 10 still gives all 100 to a read of 100 bytes |
| `FsReading.ZerosHideIt` | myFUSE/src/fuseLib.c:533-535 | a file of two blocks of zeros answers an unaligned request across the border rightly, so one map alone does not tell unreadable requests apart |
| `FsMachine.FileSystem.ReadBlock` | myFUSE/src/myFS.c:438-454 | a block inside the disk is copied to the buffer; outside it, -1 and an untouched buffer |
| `FsMachine.FileSystem.WriteBlock` | myFUSE/src/myFS.c:456-472 | a block inside the disk is replaced; outside it, -1 and an untouched disk |
| `FsMachine.FileSystem.FindFileByName` | myFUSE/src/myFS.c:22-33 | the loop computes the first entry in use with that name |
| `FsMachine.FileSystem.FindFreeEntry` | myFUSE/src/myFS.c:35-44 | the loop computes the first free entry |
| `FsMachine.FileSystem.FindFreeInode` | myFUSE/src/myFS.c:46-55 | the loop computes the first free inode |
| `FsMachine.FileSystem.MyQuota` | myFUSE/src/myFS.c:192-205 | the loop counts the zero bits below the disk size |
| `FsMachine.FileSystem.ClearLastBlock` | myFUSE/src/fuseLib.c:36-55 | the tail of the last block is cleared through a block buffer; the range check never fails |
| `FsMachine.FileSystem.CollectBlocks` | myFUSE/src/fuseLib.c:66-81 | the loop without index bound stays inside the bitmap and computes the allocation |
| `FsMachine.FileSystem.FreeBlocks` | myFUSE/src/fuseLib.c:92-100 | the shrinking loop computes the release of blocks; the range check never fails |
| `FsMachine.FileSystem.ResizeNode` | myFUSE/src/fuseLib.c:22-114 | the whole state and the code after `resizeNode` |
| `FsMachine.FileSystem.MyWrite` | myFUSE/src/fuseLib.c:336-381 | the whole state and the code after `my_write` |
| `FsMachine.FileSystem.WriteBytes` | myFUSE/src/fuseLib.c:348-372 | the loop over block buffers computes the new data blocks |
| `FsMachine.FileSystem.ReadBytes` | myFUSE/src/fuseLib.c:516-536 | the loop over block buffers computes what is read, with its advance of the offset |
| `FsMachine.FileSystem.MyRead` | myFUSE/src/fuseLib.c:503-545 | what `my_read` returns |
| `FsMachine.FileSystem.MakeFile` | myFUSE/src/fuseLib.c:581-636 | the whole state and the code after `my_mknod` or `my_mkdir` |
| `FsMachine.FileSystem.MyTruncate` | myFUSE/src/fuseLib.c:486-501 | the whole state and the code after `my_truncate` |
| `FsMachine.FileSystem.MyOpen` | myFUSE/src/fuseLib.c:304-319 | the code of `my_open` and the inode left in the handle |
| `FsMachine.FileSystem.MyMkfs` | myFUSE/src/myFS.c:118-190 | the loops of `myMkfs` compute the fresh file system, and the error codes |
| `FsMachine.FileSystem.LoadInodes` | myFUSE/src/myFS.c:70-94 | inodes in use are copied to memory without `tipo`, and the count of free inodes drops by their number |
| `FsMachine.FileSystem.MyMount` | myFUSE/src/myFS.c:364-396 | the state after `myMount` |
| `TarRoundTrip.StoredIs` | myTAR/mytar_routines.c:19-31 | an archive keeps the bytes of a file before its first 0xFF; the whole file exactly when it has none (and at most INT_MAX bytes) |
| `TarSpec.LeRoundTrip` | myTAR/mytar_routines.c:214-221 | the four bytes of an integer, least significant first, are read back as that integer |
| `TarRoundTrip.HeaderBack` | myTAR/mytar_routines.c:104-129 | reading a header gives back the names and sizes that were written, for names without NUL |
| `TarRoundTrip.CopynKeeps` | myTAR/mytar_routines.c:19-31 | the bytes before the first 0xFF are copied, at most the number asked for, and a 0xFF that stops the copy has been read |
| `TarFormat.CreateExactly` | myTAR/mytar_routines.c:161-229 | for all tables: the code is 0 if and only if every input is there; if one is missing the code is 1, no archive is left whatever was there before, and extracting it fails; every other file is unchanged in both cases |
| `TarFormat.ArchiveLayout` | myTAR/mytar_routines.c:182-221 | where each name, size and stored file stands in the archive |
| `TarFormat.ArchiveRest` | myTAR/mytar_routines.c:182-229 | the length of an archive whose header fits, and zeros between the header and the first file |
| `TarFormat.HeaderExactly` | myTAR/mytar_routines.c:104-129 | a header is read if and only if the file begins with it: the signed number of files and that many (name, size) pairs |
| `TarFormat.ExtractCode` | myTAR/mytar_routines.c:266-294 | how the extraction loop ends, for every header: 0 if every entry has a name, -1 at the first that has none; files that are not listed do not change |
| `TarRoundTrip.RoundTrip` | myTAR/mytar_routines.c:161-295 | if the header fits in the room reserved for it, extracting a created archive at any later time gives every name its stored bytes and changes no other file |
| `TarRoundTrip.WholeFile` | myTAR/mytar_routines.c:19-31 | a file comes back whole exactly when it has no 0xFF and at most INT_MAX bytes |
| `TarRoundTrip.FitsExactly` | myTAR/mytar_routines.c:182-221 | for distinct names, archives give back every contents if and only if the encoded header fits in 4 + 16 n bytes |
| `TarRoundTrip.FitsMeans` | myTAR/mytar_routines.c:182 | the header fits exactly when the names have at most eleven bytes on average |
| `TarRoundTrip.Overlaid` | myTAR/mytar_routines.c:213-221 | when it does not fit, files whose archive gives back another byte |
| `TarMachine.CopynFile` | myTAR/mytar_routines.c:19-31 | the byte loop copies exactly the stored prefix and stops where the specification stops |
| `TarMachine.LoadString` | myTAR/mytar_routines.c:69-92 | the string up to the terminator and the position behind it, or nothing at the end of the file |
| `TarMachine.ReadTarHeader` | myTAR/mytar_routines.c:104-129 | the loop reads what the specification reads |
| `TarMachine.WriteTwice` | myTAR/mytar_routines.c:185-221 | writing at consecutive positions is one write of the concatenation |
| `TarMachine.Directory.PackData` | myTAR/mytar_routines.c:185-208 | the copied data and noted sizes, or failure at the first missing input |
| `TarMachine.Directory.WriteHeader` | myTAR/mytar_routines.c:211-221 | the header overlays the start of the file |
| `TarMachine.Directory.Create` | myTAR/mytar_routines.c:161-229 | the files and the exit code after `createTar`; a missing input removes the archive |
| `TarMachine.Directory.Extract` | myTAR/mytar_routines.c:252-295 | the files and the code after `extractTar` |

## Left out

* The idle task's clocks, log and flags: a CPU without a task has no current task in the model, so what the source
  charges to its idle task does not appear.
* Task pointers: run queues and events of `SchedMachine` hold positions in the task table, and its queues are sequences;
  the linked lists themselves are modelled in `Slist`, which `SchedMachine` does not use. Its loops search the sequences
  as `Slist.Slist.SortedInsert` searches the links, and both are proved against `Sequences.InsertPos`.
* SchedMachine.Machine.SchedulerTick: does not model what the source charges to the idle task and logs for it.
* SchedMachine.Machine.RunTrials: states the trials during which no other thread acts; trials with arbitrary sections of
  other CPUs between them are the steps `BalanceTrial` of `SchedRuns`.
* SchedMachine.Machine.LoadBalanceCpu: the same for the whole call.
* Sched loads: the comparison functions and counters use unbounded integers; overflow of `int` is not modelled (the
  balancer's loads are required to be below INT_MAX).
* Parsing of task files, log printing, delays, thread creation and joining, the debug mode.
* `barrier.c`: the barrier is a primitive of the protocol model.
* The lottery class (`sched_loto.c`).
* The gap in `double_lock_rq` while the own lock is released: in `SchedRuns` other CPUs may act between any two trials
  and the loads are arbitrary; `SchedMachine.Machine.LoadBalanceCpu` is the call that nobody disturbs.
* The next balancing time of a single CPU, which the source never advances and never uses.
* Zero-length phases, which the state machine of the source does not support.
* `my_unlink`, `my_getattr`, `my_readdir`, mode strings, FUSE registration and option parsing.
* `reserveBlocksForNodes`, which is only called for 0 blocks.
* Byte layout of the structures on disk: typed regions instead, justified by `FsTypes.NodeSlots`.
* FsMachine.FileSystem.ReadBytes: does not model what the C code reads through stale entries of the block list beyond
  the blocks of the file; the result is None there.
* FsMachine.FileSystem.MyRead: the same for the whole call, since it is that loop.
* FsMachine.FileSystem.MakeFile: `my_mknod` and `my_mkdir` have the same body but for `tipo`, so one method with a
  parameter stands for both.
* FsMachine.FileSystem.LoadInodes: the loop of `initializeNodes` and that of `myMount` are one method; they differ only
  in that the second does not write the null pointers that are already there.
* Several clock readings in one call: each call has one value of the clock.
* Failure of `open`, `malloc`, `fopen` for writing and of disk input or output.
* TarSpec.ExtractTar: does not model what happens after a header that cannot be read (the source goes on with a null
  pointer and a closed stream) or when the archive is listed in itself; the result is None there.
* TarMachine.ReadTarHeader: the same, None for a header that ends early.
* TarMachine.Directory.Extract: the same, None for such a header or for an archive listed in itself.
* TarMachine.Directory.Create: does not model an archive that is one of its own inputs, where the result depends on the
  buffering of streams.
* `Demonio`, `Inotify`, `Temporizacion` and `DriverLED`.
