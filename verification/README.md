# Process manager scheduling core, in Dafny

This project models the scheduling core of a small teaching operating-system
process manager written in C. The manager is given a list of loaded processes.
Each process is a process control block (PCB): a name, a priority, a state, an
instruction list with a pointer to the next instruction, and the list of
resources it holds. The manager moves these processes between a ready queue, a
waiting queue and a terminated queue. The processes execute request and
release instructions against a global list of resource records, each record
YES or NO. Two scheduling loops drive the manager:

- first come, first served. The round-robin code also runs this loop.
- priority scheduling with preemption.

## Structure

| module | file | what it holds |
|---|---|---|
| `ProcStructs` | `proc_structs.dfy` | The records of `proc_structs.h`: states, instruction kinds, availability (each with its C enum code), `Instr`, `Pcb`, `Resource`, and the C `int` range. The next-instruction pointer is an index `pc` into an immutable instruction list; NULL is `pc >= |instrs|`. |
| `Seqs` | `seqs.dfy` | Generic sequence helpers: removal of the first occurrence, distinctness. |
| `Queues` | `queues.dfy` | `pcb_queue_t` as a sequence of process ids: `enqueue_pcb` and `dequeue_pcb`. |
| `Links` | `links.dfy` | The same queues at pointer level: `first`/`last` and a heap of `next` links. This is where the sequence view is shown to agree with the pointer chain while a queue has no repeats. It also shows the self-loop produced by enqueuing a queue's tail again, and the splice of two queues that share a tail. |
| `Ledger` | `ledger.dfy` | The list of resource records and the three queries on it: the request scan, `is_resource_available` and `mark_resource_as_available`. |
| `Manager` | `manager.dfy` | The log `Event`, the system state `Sys` (process table, ledger, three queues, loader arrivals, event log) and the manager operations. |
| `WakeUp` | `wakeup.dfy` | The two wake-up walks over the waiting queue, each proved equal to a filter. |
| `Exclusion` | `exclusion.dfy` | Mutual exclusion: every taken record has exactly one holder, every free record none. It is preserved by every operation. |
| `Scheduler` | `scheduler.dfy` | The two loops as step functions on `Cpu(s, cur)`, each step one pass; fuel-bounded runs; dispatch on the policy code. |
| `Loops` | `loops.dfy` | Mutual exclusion over whole runs. Instruction lists never change, and only the running process's pointer moves, by one. |
| `Partition` | `partition.dfy` | Every process is in exactly one place, in a state that agrees with it. Every pass that does not block keeps this. The first-come-first-served loop breaks it at every blocking request, and the priority loop when the blocked process is then preempted. |
| `Quirks` | `quirks.dfy` | Concrete situations showing behaviour of the C code as written that its comments do not lead one to expect. |

## How the environment is modelled

- **Loader (`get_new_pcb`):** a list `arrivals` of optional process ids. Each
  poll consumes one entry, and an exhausted list answers NULL from then on.
  The initial list of loaded processes is a parameter of `InitQueues`.
- **Logger:** each `log_*` call appends one `Event` to `Sys.trace`.
- **`printf`:** left out.
- **Memory:** allocation always succeeds.
- **Process identity:** processes are indices into the process table. A queue
  holds indices, and each PCB's `next` field is the queue's order, or in
  `Links`, an explicit heap.
- **Loops and fuel:** the C `while` loops are step functions. `RunFcfs` and
  `RunPriority` iterate them with fuel and return `OutOfFuel` when it runs out.

## Behaviour modelled as written

The model follows the C code wherever it departs from what its comments
suggest. Each case below is stated as a lemma.

- **FCFS blocks a process twice.** In the first-come-first-served loop,
  `request_resource` puts a blocked process on the waiting queue, and the
  loop's `if (state == WAITING)` branch calls `move_proc_to_wq` again. The
  process is listed twice and two "waiting" lines are logged.
  - `Scheduler.FcfsBlockEnqueuesTwice` and `Partition.FcfsBlockBreaksPartition` show this.
  - At pointer level, enqueuing the tail again makes the tail point to itself (`Links.EnqueueTailAgainCycles`).
- **Priority loop re-readies a blocked process.** The priority loop's
  preemption check runs even when the current process has just blocked. If a
  higher-priority process is ready, the blocked process is set READY and
  appended to the ready queue while it is still on the waiting queue
  (`Partition.BlockedPreemptDoubleBooks`, `Quirks.BlockedProcessPreempted`).
- **Wake-up on release looks ahead.** `is_waiting_for_resource` scans from
  the next instruction to the end of the list. A process blocked on one
  resource is woken by the release of another it asks for later
  (`Quirks.WaitingLooksAhead`).
- **Resource wake-up ignores the instruction kind.** The resource-based
  wake-up only looks at the name in the next instruction, whatever its kind
  (`Quirks.ResumeIgnoresKind`).
- **Repeated record names.**
  - The availability query looks only at the first record with a name, while a request takes the first record that is free (`Quirks.QueriesDisagreeOnRepeatedNames`).
  - A release marks the first record with that name free, which need not be the record the process took (`Quirks.ReleaseFreesWrongRecord`).
  - With distinct names the queries agree (`Ledger.AvailabilityQueriesAgree`) and a request followed by a release restores the ledger (`Exclusion.RequestReleaseRoundTrip`).
- **Deadlock check ignores the running process.** A process that is RUNNING
  and about to release what the waiting processes need does not prevent the
  deadlock verdict (`Quirks.DeadlockWhileRunning`).
- **Lowest priority never selected.** `find_highest_priority_proc` starts
  from `INT_MIN` with a strict comparison. A ready process whose priority is
  `INT_MIN` is never selected.

## Model

| member | source | states |
|---|---|---|
| ProcStructs.StateCode | src/proc_structs.h:9 | The five process states are coded 0 to 4 as in `state_t`, and decoding a state's code gives the state back. |
| ProcStructs.InstrKindCode | src/proc_structs.h:10 | The four instruction kinds are coded 0 to 3 as in `instr_types_t`, and the coding is invertible. |
| ProcStructs.AvailCode | src/proc_structs.h:11 | NO and YES are coded 0 and 1 as in `available_t`, and the coding is invertible. |
| ProcStructs.NextInstr | src/proc_structs.h:56-63 | The next instruction is NULL exactly when the pointer has passed the last instruction. Otherwise it is the instruction the pointer designates. |
| Scheduler.PolicyCode | src/manager.h:10 | PRIOR, RR and FCFS are coded 0, 1, 2 as in `schedule_t`, and decoding the code gives the policy back. |
| Queues.Enqueue | src/manager.c:577-593 | A NULL process leaves the queue unchanged. Otherwise the old queue is kept as a prefix, the process is the new tail, and the contents grow by exactly that process. |
| Queues.Dequeue | src/manager.c:602-619 | An empty queue yields NULL and stays empty. Otherwise the head is returned and the rest of the queue keeps its order. |
| Queues.EnqueueDequeueFifo | src/manager.c:577-619 | The queue is first in, first out. Dequeuing after an enqueue returns the old head, or the new process if the queue was empty. The result equals enqueuing onto the dequeued rest. |
| Links.EnqueuePcb | src/manager.c:577-593 | A NULL process or queue changes nothing. Otherwise the process becomes `last`, `first` is set, and the queue stays well formed. |
| Links.DequeuePcb | src/manager.c:602-619 | A NULL or empty queue yields NULL and nothing changes. Afterwards `first` is NULL exactly when `last` is. |
| Links.EnqueueExtendsChain | src/manager.c:577-593 | On a queue without repeats, linking a new process after the tail yields the chain of the sequence with that process appended. Only the links of the old tail and the new process change. |
| Links.DequeueShortensChain | src/manager.c:602-619 | On a queue without repeats, the pointer dequeue returns the sequence's head and leaves the chain of the sequence's tail. An empty chain yields NULL. |
| Links.SharedTailSplices | src/manager.c:577-593 | When two queues end at the same process, an enqueue on one writes that process's `next`, and the other queue is then the chain of no sequence at all. |
| Links.EnqueueTailAgainCycles | src/manager.c:577-593 | Enqueuing the process that is already the tail makes its `next` point to itself. The queue is then the chain of no sequence at all. |
| Ledger.IsResourceAvailable | src/manager.c:959-969 | True exactly when the first record with the name exists and is YES. |
| Ledger.FirstAvailable | src/manager.c:355-377 | The request scan finds the first record that has the name and is YES, if one exists. When it finds none, no record with the name is YES. |
| Ledger.MarkResourceAsAvailable | src/manager.c:814-824 | Only the first record with the name changes, and it becomes YES. Afterwards the name is available exactly when the ledger knows it. |
| Ledger.AvailabilityQueriesAgree | src/manager.c:959-969 | With distinct record names, `is_resource_available` is true exactly when a request would succeed. |
| Ledger.TakenIsFirstNamed | src/manager.c:814-824 | With distinct names, the record a request takes is the one a release later marks free. |
| Manager.MoveProcToRq | src/manager.c:492-501 | The process becomes READY and is appended to the ready queue, and one "ready" line is logged. No other process, queue, record or arrival changes. |
| Manager.MoveProcToWq | src/manager.c:506-515 | The process becomes WAITING and is appended to the waiting queue, and one "waiting" line names the resource. No other process, queue, record or arrival changes. |
| Manager.MoveProcToTq | src/manager.c:522-531 | The process becomes TERMINATED and is appended to the terminated queue, and one "terminated" line is logged. No other process, queue, record or arrival changes. |
| Manager.RequestResource | src/manager.c:350-383 | When a YES record exists, the first one becomes NO, its name is prepended to the process's resources, and an "acquired" line is logged. Otherwise the process becomes WAITING, is appended to the waiting queue, and a "waiting" line is logged. Nothing else changes, and the instruction pointer stays. |
| Manager.AcquireResource | src/manager.c:394-424 | Succeeds exactly when the process and name are non-NULL and a YES record exists. It then takes the first such record for the process without logging. On failure nothing changes. |
| Manager.AvailableForProcessIsGrantable | src/manager.c:976-985 | With distinct record names, the query says yes exactly when the next instruction is a request that `request_resource` would grant. |
| Manager.IsWaitingForResource | src/manager.c:832-851 | True exactly when the process is WAITING and a request for the name occurs anywhere from its next instruction to the end. |
| Manager.CanResume | src/manager.c:919-924 | The resource wake-up test: a next instruction exists and the first record named by it is YES. |
| Manager.IsResourceAvailableForProcess | src/manager.c:976-985 | True exactly when the process is non-NULL, its next instruction is a request, and that resource is available. |
| Manager.MoveMatchingFrame | src/manager.c:540-567 | A walk over the waiting queue only appends to the ready queue and the log, and only changes process states. The ledger, terminated queue and arrivals stay the same. The ready and waiting queues together keep their contents. |
| Manager.ReleaseResource | src/manager.c:436-468 | Releasing a resource the process does not hold only logs an error. Otherwise the first copy of the name leaves the process's list, the first record with the name becomes YES, and a "released" line is logged before any wake-up. |
| Manager.ExecuteInstrFrame | src/manager.c:308-338 | Executing an instruction never moves the executing process's instruction pointer and never touches the terminated queue or the arrivals. |
| Manager.CheckForNewArrivals | src/manager.c:473-485 | Each call consumes one loader answer and reports TRUE exactly when it is a process. That process is appended to the ready queue as READY with a "ready" line. Otherwise nothing but the loader changes. |
| Manager.CheckDeadlock | src/manager.c:991-998 | Deadlock is reported exactly when the ready queue is empty and the waiting queue is not. It is then logged, and otherwise nothing changes. |
| Manager.FindHighestPriorityProc | src/manager.c:857-872 | Returns NULL exactly when every ready process has priority `INT_MIN`. Otherwise it returns a member of the ready queue. |
| Manager.HighestIsFirstMax | src/manager.c:857-872 | The chosen process is the first in queue order among those of maximal priority, and no ready process has a higher priority. |
| Manager.HigherPriority | src/manager.c:629-632 | Equal priorities never outrank each other, nothing outranks INT_MAX, and INT_MIN outranks nothing. |
| Manager.HigherPriorityOrder | src/manager.c:629-632 | The comparison is a strict total order: irreflexive, asymmetric and transitive, and of two different priorities one is the higher. |
| Manager.InitQueues | src/manager.c:121-142 | The loaded list becomes the ready queue as it is, its last element the tail. The waiting and terminated queues and the log start empty. |
| WakeUp.MoveMatchingIsFilter | src/manager.c:540-567 | On a waiting queue without repeats, the unlink-and-move walk equals a filter. The accepted processes are appended to the ready queue in order, as READY, each logged once. The rejected ones remain waiting, in order. |
| WakeUp.WakeUpOnRelease | src/manager.c:540-567 | After a release, a waiting process moves to the ready queue as READY exactly when it is WAITING with a request for the name ahead of it. Every other process stays waiting, untouched. |
| WakeUp.WakeUpOnAvailability | src/manager.c:910-952 | A waiting process moves to the ready queue as READY exactly when the first record named by its next instruction is YES. Every other process stays waiting, untouched. |
| Exclusion.OneHolder | src/proc_structs.h:37-41 | Under mutual exclusion a record is YES exactly when no process holds its name. A NO record has exactly one holder, which holds it once. |
| Exclusion.InitExclusive | src/manager.c:121-142 | A fresh system is mutually exclusive when every record is YES, the names are distinct and no process holds anything. |
| Exclusion.RequestKeepsExclusive | src/manager.c:350-383 | A request preserves mutual exclusion. |
| Exclusion.AcquireKeepsExclusive | src/manager.c:394-424 | `acquire_resource` preserves mutual exclusion, whether it takes a record or refuses. |
| Exclusion.ReleaseKeepsExclusive | src/manager.c:436-468 | A release, with its wake-up, preserves mutual exclusion. |
| Exclusion.WakeUpKeepsExclusive | src/manager.c:910-952 | The resource-based wake-up preserves mutual exclusion. |
| Exclusion.ExecuteKeepsExclusive | src/manager.c:308-338 | Executing any instruction preserves mutual exclusion. |
| Exclusion.ArrivalKeepsExclusive | src/manager.c:473-485 | An arrival poll preserves mutual exclusion. |
| Exclusion.RequestReleaseRoundTrip | src/manager.c:436-468 | With distinct names, a request that succeeds followed by a release of the same name restores the ledger and the process's resource list. |
| Scheduler.RemoveProcFromReadyq | src/manager.c:878-905 | NULL changes nothing. Otherwise the first occurrence of the process leaves the ready queue, others keep their order, and nothing else changes. |
| Seqs.RemoveFirst | src/manager.c:878-905 | The walk unlinks the first occurrence: everything before it and everything after it stays, in order. |
| Scheduler.RemoveFromReadyDistinct | src/manager.c:878-905 | On a ready queue without repeats, the removed process is gone and exactly the other processes remain. |
| Scheduler.SwitchToEffect | src/manager.c:221-232 | A switch makes the chosen process RUNNING and takes it off the ready queue. A previous current process is appended as READY with one "ready" line. No priority changes. |
| Scheduler.PreemptOnlyOnHigher | src/manager.c:221-232 | The current process is replaced only by a ready process of strictly higher priority, or when nothing is current. The replaced process goes to the ready tail as READY. Without a switch nothing changes. |
| Scheduler.PreemptKeepsTop | src/manager.c:221-232 | After the preemption check, no ready process has a higher priority than the current one. |
| Scheduler.FcfsHaltsCleanly | src/manager.c:258-263 | The first-come-first-served loop ends exactly when nothing is current and the ready queue is empty, even with processes still waiting. It never reports a deadlock. |
| Scheduler.FcfsNonPreemptive | src/manager.c:268-280 | While a process is current, a pass either keeps it current and moves its instruction pointer by one, or gives it up. Another process is never switched in. |
| Scheduler.FcfsBlockEnqueuesTwice | src/manager.c:268-276 | A request that cannot be granted leaves the process WAITING, appended to the waiting queue twice, with two "waiting" lines. |
| Scheduler.EndChecksVerdict | src/manager.c:238-248 | The end-of-pass checks report deadlock only with an empty ready queue and a non-empty waiting queue, logged last. They always report it when the queues are so, whether or not a process is current. |
| Scheduler.PriorityDeadlockVerdict | src/manager.c:177-248 | A pass of the priority loop that stops with a deadlock leaves an empty ready queue, a non-empty waiting queue and a deadlock line last in the log. |
| Scheduler.RunFcfs | src/manager.c:255-288 | A run of the first-come-first-served loop never ends with a deadlock verdict. |
| Scheduler.RunPriority | src/manager.c:172-250 | A run of the priority loop that ends with a deadlock verdict has an empty ready queue, a non-empty waiting queue and a deadlock line last in the log. |
| Scheduler.ScheduleProcesses | src/manager.c:150-167 | PRIOR runs the priority loop, RR and FCFS both run the first-come-first-served loop, and any other code does nothing. Each loop starts with no current process. |
| Loops.FcfsKeepsExclusive | src/manager.c:258-285 | One pass of the first-come-first-served loop preserves mutual exclusion. |
| Loops.PriorityKeepsExclusive | src/manager.c:177-249 | One pass of the priority loop preserves mutual exclusion. |
| Loops.RunFcfsKeepsExclusive | src/manager.c:255-288 | A whole first-come-first-served run preserves mutual exclusion. |
| Loops.RunPriorityKeepsExclusive | src/manager.c:172-250 | A whole priority run preserves mutual exclusion. |
| Loops.ScheduleKeepsExclusive | src/manager.c:150-167 | Whatever the policy code, the schedule preserves mutual exclusion. |
| Loops.PriorityStepCode | src/proc_structs.h:26 | Over a pass of the priority loop, no process's name, priority or instruction list changes. Only the process that ran in the pass may move its instruction pointer, by one. |
| Loops.FcfsStepCode | src/manager.c:268-280 | Over a pass of the first-come-first-served loop, names, priorities and instruction lists stay. Only the current process may move its instruction pointer, by one. |
| Partition.Apart | src/manager.c:577-593 | Under the partition no queue lists a process twice, and no process is on two queues. |
| Partition.InitPartitioned | src/manager.c:121-142 | The queues set up from a loaded list are partitioned when the loader hands out each process once and the loaded processes are NEW or READY. |
| Partition.WakeUpKeepsPartition | src/manager.c:540-567 | A wake-up walk keeps every process in exactly one place, with a state that agrees. |
| Partition.ArrivalKeepsPartition | src/manager.c:473-485 | An arrival poll moves the process from the loader's list to the ready queue and keeps the partition. |
| Partition.TerminateKeepsPartition | src/manager.c:522-531 | Terminating the running process moves it from the current slot to the terminated queue and keeps the partition. |
| Partition.ReleaseKeepsPartition | src/manager.c:436-468 | A release by the running process keeps the partition. |
| Partition.ExecuteKeepsPartition | src/manager.c:308-338 | Executing an instruction that does not block keeps the partition. |
| Partition.SwitchKeepsPartition | src/manager.c:221-232 | A switch from a RUNNING current process to a ready one keeps the partition and the set of processes. |
| Partition.FcfsKeepsPartition | src/manager.c:255-288 | A first-come-first-served pass that does not block keeps the partition, with every process accounted for and the current process RUNNING. |
| Partition.FcfsBlockBreaksPartition | src/manager.c:268-276 | A first-come-first-served pass that blocks lists the process twice on the waiting queue and breaks the partition. |
| Partition.PriorityKeepsPartition | src/manager.c:172-250 | A priority pass whose selected process does not block keeps the partition, with every process accounted for. |
| Partition.BlockedPreemptDoubleBooks | src/manager.c:221-235 | When a higher-priority process is ready and the current process is WAITING, the preemption puts it on the ready queue while it is still on the waiting queue. This breaks the partition. |
| Quirks.QueriesDisagreeOnRepeatedNames | src/manager.c:959-969 | With two records named "r", the first NO and the second YES, the availability query says no while a request would take the second record. |
| Quirks.ReleaseFreesWrongRecord | src/manager.c:814-824 | A process holding the second of two records named "r" releases it. The first record, already YES, is marked again, and the second stays NO with nobody holding it. |
| Quirks.WaitingLooksAhead | src/manager.c:838-846 | A WAITING process blocked on "b", with a later request for "a", counts as waiting for "a". |
| Quirks.ResumeIgnoresKind | src/manager.c:919-924 | A waiting process whose next instruction is a release of a YES resource passes the wake-up test, while `is_resource_available_for_process` says no. |
| Quirks.DeadlockWhileRunning | src/manager.c:991-998 | With a RUNNING process holding "r" and about to release it, and another process waiting for "r", the end-of-pass checks report deadlock. |
| Quirks.BlockedProcessPreempted | src/manager.c:206-235 | In a partitioned pass, a RUNNING process blocks and a higher-priority arrival preempts it. The blocked process ends READY on the ready queue and also on the waiting queue. |

## Left out

- `main`, the command-line parsing (`get_init_data`, `get_data`, `get_algo`, `get_time_quantum`), and the `print_*` debugging functions: pure I/O.
- The `printf` in `check_for_new_arrivals`, and the `DEBUG_MNGR` output of `init_queues`: output only.
- The logger is reduced to abstract `Event` values appended to a trace. The exact text is not modelled.
- The parser, the process generator and the loader are not part of this model. The loader is the `arrivals` oracle and the `loaded` list.
- `free_manager` and allocation failure: memory is not modelled, and allocation always succeeds. `acquire_resource` marks a record NO before the `malloc` that may fail, and then returns FALSE. That path is not modelled.
- `schedule_rr` and `resolve_deadlock` are stubs that the manager never calls. `detect_deadlock` is reduced to its one log event.
- SEND and RECV instructions, mailboxes and message text: `execute_instr` does nothing with them, and they are modelled as doing nothing.
- The process `number` field is not used by the core.
- NULL checks on arguments that the manager always passes non-NULL are not modelled as separate paths, except where the C returns a value for them. The checks left out are the NULL pcb in `move_proc_to_*`, the NULL queue in the sequence-level `Queues.Enqueue`/`Queues.Dequeue` (the pointer-level `Links` versions do model it), and the NULL pcb or name in `is_waiting_for_resource`.
- `remove_proc_from_readyq` clears the `next` link of the removed process even when it was not on the queue. The sequence model has no separate links, and `Links` covers only enqueue and dequeue.
- Termination of the loops is not proved. `RunFcfs` and `RunPriority` take fuel, and a run that exhausts it ends in `OutOfFuel`, which claims nothing about the rest of the C loop.
- Queues as sequences record the order of enqueue calls. The C pointer chain matches them only while no process is linked twice, on one queue or on two. The two loops break this in different ways, and later behaviour of the C then diverges from the sequence model:
  - After the double enqueue of the first-come-first-served loop, the C chain has a self-loop (`Links.EnqueueTailAgainCycles`).
  - After the double booking of the priority loop, the blocked process is the tail of both the waiting and the ready queue. The next enqueue on either queue splices the two chains through its one `next` field, although neither sequence has a repeat (`Links.SharedTailSplices`). The wake-up walks then step into ready processes and rewrite their links.
- Scheduler.FcfsBlockEnqueuesTwice: assumes the loader does not hand out the running process again in the same pass.
- Partition.InitPartitioned: assumes the loader hands out each process at most once over the whole run, which the C relies on but does not check.
- Partition.FcfsKeepsPartition: covers only passes that do not block. A blocking pass breaks the partition (`Partition.FcfsBlockBreaksPartition`).
- Partition.PriorityKeepsPartition: covers only passes whose selected process does not block. A blocking pass breaks the partition when the blocked process is then preempted (`Partition.BlockedPreemptDoubleBooks`). A blocking pass without that preemption keeps the partition, but this lemma does not cover it.
