# JaeOS kernel core

A model of the process and semaphore core of the JaeOS kernel, and proofs of
what it promises: the intrusive lists of `include/clist.h`, the PCB pool and
process tree of `source/pcb.c`, the Active Semaphore List of `source/asl.c`,
creation, subtree kill and weighted semaphores of `source/syscall.c`, the
scheduler, the exception and interrupt handlers, and `main`.

`dafny verify dfyconfig.toml` checks everything.

## How it is built

The kernel is modelled twice, and the two are proved to agree.

* **In memory.** `Memory.Kernel` holds the static tables as arrays and the
  globals as fields. A pointer is an index or `NULL` (-1); a list entry point
  holds the index of its tail; each `struct clist` member is an array of links,
  and one array, `pList`, is shared by the free list, the ready queue and all
  semaphore queues, as `p_list` is. Every C function is a method over this
  memory, with the branches, loops and recursion of the source. MAXPROC is any
  `n >= 1`.
* **As a state machine.** `Model.Step(k, e, c)` says what one exception or
  interrupt `e` does to an abstract state: lists as sequences, the ASL as a map
  from address to non-empty queue, the tree as an inductive forest. `c` holds
  the readings of the clock that the handlers take.

`Memory.Kernel.Core` says when the memory represents an abstract state. Each
handler method ensures `k.Abs() == Step(old(k.Abs()), e, c)`, and `Boot.Run`
builds the initial state, so every law proved about runs of `Step` is a law
about the memory.

`CallLaws` says what a step does without naming the functions it is made of: an
event has a weight at every address (`Weight`), a set of processes it dooms
(`Doom`), and either lets its caller go on or makes the scheduler load
(`Loads`). The laws from `main` on are sums over the events in these terms.

A `Model.Machine` names MAXPROC, the address of `device_sem`, the semaphore
words as the program initialises them, and whether the kernel is the one as
written or a repaired one, see below. A history is a sequence of events from
`main` on, on any such machine.

| file | what it is about |
|---|---|
| Clist, Forest | rings of links and the list macros; forests |
| Lists, Semaphores, Progress, Processes | the elementary list operations, the partition, weighted semaphores over runs, the pseudo-clock, round robin, the tree |
| PidGenerator, PidLaws | pid_generator in 32-bit arithmetic; when pids tell processes apart, from `main` on |
| Model, ModelInvariant, ModelRuns | the state machine, its invariant, its runs |
| CallLaws | one step, told from the event: who runs next, every queue, every semaphore word, the tree, the free list |
| WordLaws, TickLaws, ExactTimes | the semaphore words, the ticks of the pseudo-clock and the CPU times from `main` on, told from events and clock readings |
| SystemLaws, KillLaws, ReadyDescendants | what holds from `main` on; what a kill removes, and when it does damage |
| ClockLaws, TimeAccounting | the pseudo-clock semaphore and CPU time from `main` on |
| Scenarios, HangInMemory | runs from `main` that show where the code fails |
| Memory, PcbQueues, ProcessTree, ActiveSemaphores | the tables and pcb.c, asl.c over them |
| Termination, WeightedSemaphores, Syscalls, Scheduler, Handlers, Boot | syscall.c, scheduler.c, exceptions.c, interrupts.c, initial.c over the tables |

## Findings

Where the code does not keep what it promises, there is a run that shows it and
a condition that says exactly when.

* `terminate_children` frees PCBs without taking them out of the ready queue
  (source/syscall.c:163-164). The partition survives a kill iff no proper
  descendant of the victim is ready (`KillLaws.KillKeepsIff`; for the links,
  `ReadyDescendants.ReadyBrokenIff`). `SystemLaws.ReadyChildSoon`: such a state
  is one CREATEPROCESS away from boot. The `outProcQ` that follows ends iff no
  proper descendant of the victim is ready, or the tail of the ready queue is
  one, or the victim is ready in front of all who are (`KillLaws.KillEndsIff`;
  on the links, `ScanEndsIff`); `Scenarios.KillHangs` and
  `HangInMemory.RunToHang` are a run from power-on to a kill that does not end.
* With `outProcQ(&readyqueue, p)` before source/syscall.c:164 no kill does
  damage. This repaired kernel is the machine with `repaired` set, and the
  memory with `Memory.Kernel.repaired` set: its histories have no condition on
  kills, so everything proved of histories holds of them whoever is killed, and
  the handler methods refine its steps on the links (`LeaveReady` is the one
  call that differs). `RepairIsConservative`: nothing else changes. Steps of the
  kernel as written that kill ask for `NoReadyBelow`; the methods for
  `terminate_children` do not.
* A kill raises a semaphore but wakes nobody, so that a request can overtake one
  that waits: `Scenarios.OvertakingReached` is a run from `main`. It is possible
  iff the semaphore is not a device's, somebody else waits, and what the victim
  gives back leaves the value positive (`Semaphores.KillOvertakesIff`). As long
  as no kill is like that, nobody is ever overtaken (`OrderDespiteKills`).
  `KillTightIff` says which kills leave a head that could have been served.
  Conservation and non-negativity hold with kills all the same.
* The loop of `pid_generator` ends iff the counter is below 4135583744
  (`PidGenerator.LoopEndsIff`). While allocPcb leaves one value in `pid` and no
  concatenation reaches 2^32, a pid names at most one live process, in every
  history (`PidLaws.AlwaysToldApart`). Beyond that, two counters share a pid iff
  the loop stops at different powers for them and the base times the difference
  of the powers makes up for the difference of the counters modulo 2^32
  (`PidsCollideIff`); 968 and 1000 do for the base 8112716 (`WrapCollides`).
* The pseudo-clock ticks more than 95 ms apart, not every 100 ms: a timer
  interrupt is a tick iff the scheduler has looked at the clock later than that
  after the last restart (`TickLaws.TickIff`, `TicksApart`).
* `get_cputime` leaves the running slice out, but not the kernel time charged in
  it (`ExactTimes.ChargesAlways` gives both accounts exactly). In every state its
  subtraction is below zero iff the handlers of the running process took longer,
  since it was loaded, than the user time it had then
  (`TimeAccounting.UserTimeAlways`); so it is after the first system call
  (`UserTimeWraps`), although `include/types.h` describes global time as user
  time plus kernel time.

## Model

| member | source | states |
|---|---|---|
| Clist.Enqueue | include/clist.h:22-32 | the ring of q becomes the ring of q + [elem]; links of other records are untouched |
| Clist.Push | include/clist.h:35-44 | the ring of q becomes the ring of [elem] + q |
| Clist.Dequeue | include/clist.h:60-64 | the ring loses its head, and becomes NULL when that was its only member |
| Clist.Delete | include/clist.h:67-95 | from any ring, the ring of q without elem (head, middle, tail, only member or absent); 0 iff elem was there; the scan that does not break ends |
| Clist.ForeachDelete | include/clist.h:129-140 | the element under the scan is unlinked, with the same result as clist_delete |
| Clist.ForeachAdd | include/clist.h:121-124 | elem stands right before the element under the scan, in front of the head on the first round |
| Clist.RingUnique | include/clist.h:13-16 | the links determine the sequence they spell |
| Clist.RingKept | include/clist.h:22-64 | edits of one ring leave every disjoint ring on the same links as it was |
| PcbQueues.FreePcb | source/pcb.c:11-13 | the PCB joins the tail of pcbFree; every other list keeps its meaning |
| ProcessTree.AllocPcb | source/pcb.c:16-67 | the head of pcbFree, cleared, or NULL iff none is free |
| PcbQueues.InsertProcQ | source/pcb.c:86-88 | p is the new tail of the queue |
| PcbQueues.RemoveProcQ | source/pcb.c:92-100 | the head is taken off, NULL for an empty queue |
| PcbQueues.OutProcQ | source/pcb.c:104-113 | p is taken out wherever it stands; NULL and no change iff it is not there |
| PcbQueues.HeadProcQ | source/pcb.c:117-124 | the head, NULL for an empty queue |
| ProcessTree.EmptyChild | source/pcb.c:131-136 | true iff the child list is empty |
| ProcessTree.InsertChild | source/pcb.c:139-142 | p is the last child of parent and has it as parent; no other list changes |
| ProcessTree.RemoveChild | source/pcb.c:147-156 | the first child leaves and has no parent |
| ProcessTree.OutChild | source/pcb.c:160-171 | p leaves its parent's list, the others in order; NULL iff it had no parent |
| ActiveSemaphores.FindSemd | source/asl.c:27-41 | the descriptor with that address iff one is listed: the early exit loses nothing |
| ActiveSemaphores.InsertSorted | source/asl.c:86-95 | the new descriptor is listed once, at its ordered place, in all four positions |
| ActiveSemaphores.InsertBlocked | source/asl.c:53-99 | the map gains p at the tail of its queue; TRUE and no change iff a descriptor is needed and none is free |
| ActiveSemaphores.RemoveBlocked | source/asl.c:104-124 | the head of the queue leaves it; an emptied semaphore leaves the map and its descriptor is free |
| ActiveSemaphores.OutBlocked | source/asl.c:127-143 | p leaves the queue it waits in, wherever it stands; NULL and no change if p_cursem is only left over |
| ActiveSemaphores.HeadBlocked | source/asl.c:147-156 | the head of the queue of the address, NULL if it is not active |
| PidGenerator.Generate | source/syscall.c:28-34 | the 32-bit value, for every counter for which the loop ends |
| PidGenerator.LoopsForever | source/syscall.c:30-32 | from 4135583744 on the loop condition stays true |
| PidGenerator.LoopEndsIff | source/syscall.c:30-32 | some value that pow takes is above y iff y is below 4135583744 |
| PidGenerator.PidIsConcat | source/syscall.c:28-34 | without overflow the pid is x times `TenAbove(y)` plus y |
| PidGenerator.TenAboveIsLeast | source/syscall.c:30-32 | which is a power of ten above y, and no power of ten from 10 up to it is above y |
| PidGenerator.ConcatDigits | source/syscall.c:28-34 | its digits are those of x followed by those of y |
| PidGenerator.ConcatInverse | source/syscall.c:33 | quotient and remainder give x and y back |
| PidGenerator.ConcatInjective | source/syscall.c:50-51 | different counters give different pids, across digit lengths |
| PidGenerator.SameStopDiffers | source/syscall.c:28-34 | with overflow or not, two counters for which the loop stops at the same power never share a pid |
| PidGenerator.PidsCollideIff | source/syscall.c:28-34 | the exact condition, for all bases and counters, for two counters to share a pid |
| PidGenerator.WrapCollides | source/syscall.c:50-51 | the counters 968 and 1000 share a pid for the aligned address 8112716 |
| PidLaws.AlwaysToldApart | source/syscall.c:50-51 | from main on, no two live processes share a pid, if allocPcb always left the same value of at least 1 in pid and no concatenation so far reaches 2^32 |
| PidLaws.PidsAlways | source/syscall.c:50-51 | from main on, the pid of every process is what pid_generator makes of the value allocPcb left there and of the number of processes created before it |
| Processes.WithChildKeeps | source/syscall.c:48 | creation keeps an acyclic tree in which p_parent and the child lists agree both ways |
| Processes.FelledKeeps | source/syscall.c:93-95 | so does the death of a subtree |
| Processes.SubtreeIsDescent | source/syscall.c:140-146 | the subtree that dies is exactly the live processes whose chain of p_parent leads to the victim |
| Processes.ReapsExact | source/syscall.c:148-161 | each queue loses exactly the dead, in place; each semaphore outside the 49 words of device_sem gets back what they waited for |
| Processes.KillsExact | source/syscall.c:79-95 | the same of deaths that also leave the ready queue, whoever dies |
| KillLaws.KillIsExact | source/syscall.c:68-167 | a kill frees exactly the subtree, in postorder, lowers both counters by the exact numbers, refunds exactly, and nobody else's parent, children order or queue order changes; in the repaired kernel for every victim, as written unless a descendant is ready |
| ModelInvariant.DeadOrder | source/syscall.c:145-164 | the order in which the dead are freed: a process after all below it, and elder siblings with theirs first |
| KillLaws.KillKeepsIff | source/syscall.c:163-164 | the partition survives a kill iff no proper descendant of the victim is ready |
| Lists.InvPreserved | source/syscall.c:36-231 | the partition of the PCBs, both counters, and res_wait < 0 of waiters survive every elementary operation |
| Lists.ReapPreservesInvIff | source/syscall.c:163-164 | the body of terminate_children keeps them iff the process it frees was not ready |
| ReadyDescendants.ReadyBrokenIff | source/syscall.c:145-165 | after the deaths, the links of the ready queue still spell a list of live processes iff none of the dead was in it |
| ReadyDescendants.ScanNeverEnds | source/syscall.c:119 | after such a death, unless the tail itself died, a scan never comes to the tail |
| ReadyDescendants.TailReachedIff | source/pcb.c:106 | the links come round to the tail iff nobody in the ready queue was freed, or the tail was |
| ReadyDescendants.ScanEndsIff | source/pcb.c:104-113 | the loop of outProcQ on the ready queue ends iff the links come round to the tail or the process it looks for stands before all who were freed |
| KillLaws.KillEndsIff | source/syscall.c:76-94 | before the kill: the outProcQ after the deaths ends iff no proper descendant is ready, or the tail of the ready queue is one, or the victim is ready in front of all of them |
| Scenarios.HangReached | source/syscall.c:54 | four steps after main process 1 is ready behind its own child |
| Scenarios.KillHangs | source/syscall.c:76-94 | when the first process then terminates 1, outProcQ does not end |
| HangInMemory.RunToHang | source/syscall.c:76-94 | the same in memory, from power-on through four handlers, then TERMINATEPROCESS, terminate_process, lookfor_progeny and terminate_children, to that call |
| ReadyDescendants.RepairKeeps | source/syscall.c:163-164 | with outProcQ before freePcb the partition survives every kill, and the ready queue loses exactly the dead |
| ReadyDescendants.RepairIsConservative | source/syscall.c:163-164 | and nothing else changes |
| Semaphores.ReleaseWakesLongestPrefix | source/syscall.c:204-230 | verhogen readies, in order, the longest prefix of the queue whose demand fits the available amount; the test `sum != 0` is redundant |
| Semaphores.Conservation | source/syscall.c:182-230 | over every run, kills of waiters included, value plus queued demand is the initial amount plus supplies less grants, less what killed waiters of a device waited for |
| Semaphores.GrantsNeverExceedSupply | source/syscall.c:182-230 | that amount stays non-negative, so grants never exceed supply |
| Semaphores.FirstComeFirstServed | source/syscall.c:182-229 | without kills of waiters, requests are grants followed by the queue, as sequences |
| Semaphores.KillTightIff | source/syscall.c:151-161 | which kills leave a head that could be served |
| Semaphores.KillOvertakesIff | source/syscall.c:151-161 | after the kill of a waiter some request can overtake the others iff the semaphore is not a device's, others wait, and the value becomes positive |
| Semaphores.OrderDespiteKills | source/syscall.c:151-230 | as long as no kill is like that, grants followed by the queue are a subsequence of the requests, and what is missing is exactly the pending requests of those killed |
| Scenarios.OvertakingReached | source/syscall.c:84-85 | a run from main after which a request is granted that a waiter with the same demand is still waiting for |
| Progress.DrainWakesAll | source/interrupts.c:117-132 | however negative the value, the drain ends with 0 and all waiters ready, in order |
| Progress.DrainIsSignals | source/interrupts.c:117-132 | it takes as many signals as the value is below zero |
| Progress.ClockDeficit | source/syscall.c:151-161 | between ticks the clock semaphore holds minus its waiters and its waiters killed since |
| ClockLaws.TickClears | source/interrupts.c:117-132 | a tick leaves the clock semaphore at 0 with nobody waiting |
| ClockLaws.ClockAlways | source/interrupts.c:117-132 | from main on the clock semaphore holds minus its waiters and its waiters killed since the last tick, if only WAITCLOCK uses it |
| Progress.ActiveBound | source/asl.c:160-171 | active semaphores are at most as many as blocked processes |
| Progress.IdleCounters | source/scheduler.c:52-66 | with nobody ready or running, process_count equals soft_block_count |
| Progress.RoundRobin | source/scheduler.c:68-98 | a process at ready index i is dispatched within i + 1 dispatches unless killed, whatever operations interleave |
| Termination.LeaveSemaphore | source/syscall.c:79-90 | a dying process leaves its queue, and exactly its word gets back what it waited for, unless it is one of the 49 of device_sem |
| Termination.TerminateChildren | source/syscall.c:140-167 | the recursion over the tree it destroys ends, and is the fold of deaths in postorder; the forest below p is gone; as written and repaired, whoever is ready |
| Termination.LeaveReady | source/syscall.c:163-164 | in the repaired kernel the dying process also leaves the ready queue, wherever it stands |
| Termination.LookforProgeny | source/syscall.c:68-108 | found iff the pid occurs from x on; the preorder-first match, and only it, is killed; the loop is safe after its element was freed |
| ModelInvariant.TargetMeaning | source/syscall.c:111-137 | whom a pid names: the caller, a descendant with that pid, or nobody iff no such process exists |
| ModelInvariant.TargetIsFirst | source/syscall.c:97-105 | of several descendants with the pid, the one that dies has the others below it or is elder |
| WeightedSemaphores.SumOfDemands | source/syscall.c:206-216 | the loop that evaluates its list through the moving scan adds up the demand of the queue |
| WeightedSemaphores.Verhogen | source/syscall.c:204-230 | summing loop and waking loop on the memory are the abstract release |
| WeightedSemaphores.DescriptorLeft | source/asl.c:72-73 | a running process always finds a free descriptor |
| WeightedSemaphores.Passeren | source/syscall.c:182-201 | the abstract request, times charged; its PANIC is unreachable |
| Syscalls.CreateProcess | source/syscall.c:36-63 | the state machine's creation, and the new pid, or -1 iff no PCB is free |
| Syscalls.TerminateProcess | source/syscall.c:111-137 | the state machine's kill of the caller, of the preorder-first match, or PANIC |
| Syscalls.SemaphoreOperation | source/syscall.c:171-231 | PANIC for NULL, death for weight 0, request below, release above |
| Syscalls.WaitClock | source/syscall.c:352-357 | a request of one unit at the clock semaphore |
| Scheduler.DeadlockDetection | source/scheduler.c:52-66 | halts, panics or waits as the counters say |
| Scheduler.Loadnext | source/scheduler.c:68-98 | requeue, clock check and dispatch of the state machine |
| Scheduler.Schedule | source/scheduler.c:15-49 | the state machine's scheduler; the invariant holds, and its PANIC branch is not reached |
| ModelInvariant.ScheduleKeeps | source/scheduler.c:42-66 | LOADCURRENT has a current process; no ready process means idle or halted, never deadlock; halted iff nobody lives |
| Handlers.SyscallHandler | source/exceptions.c:76-176 | one step of the state machine; PANIC iff a NULL semaphore or a pid that is not the caller's or a descendant's |
| Handlers.TrapHandler | source/exceptions.c:39-56 | one step: the process dies with its progeny |
| Handlers.DrainClock | source/interrupts.c:117-132 | the loop of signals on the memory is the drain |
| Handlers.InterruptHandler | source/interrupts.c:28-84 | one step, for the timer and for devices |
| Boot.LinkAll | source/pcb.c:74-78 | the initialisation loop makes one ring of all records |
| Boot.InitTables | source/initial.c:57-68 | all PCBs and descriptors are free, the ASL is empty, device semaphores are 0 and other words as they were |
| Boot.Run | source/initial.c:29-114 | main loads the first process in a state that satisfies the invariant |
| Memory.Kernel.constructor | source/initial.c:17-25 | static storage before main, with semaphore words as they are initialised |
| ModelInvariant.StepKeeps | source/exceptions.c:76-218 | every step keeps the partition, the tree, and exactly the current process off the lists; PANIC iff a NULL semaphore or an unknown pid |
| CallLaws.NextProcess | source/scheduler.c:68-98 | who runs after an event: the caller, with the ready queue in its order, if the event asks for no choice; else the head of the line, at whose tail an interrupted process stands; with an empty line idle, or halted iff nobody lives |
| CallLaws.CallerGoesOnIff | source/exceptions.c:116-173 | a system call or trap leaves its caller running iff it neither blocks it, nor ends it, nor panics |
| CallLaws.SignalReturns | source/syscall.c:204-230 | SEMOP with a positive weight goes on with its caller and does the release |
| CallLaws.ReschedulesIff | source/scheduler.c:41-46 | the scheduler chooses exactly after interrupts, traps, and calls that block or end their caller |
| CallLaws.StepWords | source/syscall.c:171-230 | over any event, at any address: the queue loses the dead and as many as wake, gains at its tail the caller if it blocks; the word moves by the weight of the event and by what the dead give back |
| CallLaws.DevicesKeepLoss | source/syscall.c:155-156 | no kill changes any of the 49 words of device_sem |
| CallLaws.StepFamily | source/syscall.c:40-54 | over any event: the new child is the last of its parent's, has the head of the free list and its pid; a kill cuts the subtree off and appends the dead to the free list; nothing else touches tree, free list or counter |
| WordLaws.WordsAlways | source/syscall.c:84-85 | from main on every semaphore word is the sum of the weights of the events at it, on top, outside device_sem, of its first value and of what the dead gave back |
| WordLaws.DevicesAlways | source/syscall.c:155-156 | from main on each of the 49 words of device_sem is what was supplied less what was requested, whoever was killed |
| WordLaws.NeedsAlways | source/syscall.c:226-228 | from main on res_wait is negative for who waits and 0 for who is ready or running |
| TickLaws.MarkIff | source/scheduler.c:76-83 | over any event: the flag is set iff it was and no tick took it, or the load read more than 95000 after pseudo_start; and where pseudo_start is then |
| TickLaws.TickIff | source/interrupts.c:117-132 | from main on a timer interrupt is a tick iff since the last restart of the clock a load read more than 95000 after it |
| TickLaws.TicksApart | source/scheduler.c:29-33 | from main on any two ticks are more than 95000 apart, from the restart at the first to the entry of the second |
| ModelRuns.StepIsRun | source/syscall.c:36-231 | what a step does to the lists is a run of elementary operations |
| ModelRuns.RunKeeps | source/exceptions.c:76-218 | every run of events keeps the invariant, and is such a run |
| ModelRuns.BoundedWaiting | source/scheduler.c:68-98 | over any run of events a ready process at index i runs within i + 1 turns of the scheduler unless killed |
| ModelRuns.InterruptsAreTurns | source/interrupts.c:42-83 | every interrupt is a turn |
| SystemLaws.AlwaysParted | source/initial.c:57-108 | from main on every PCB is in exactly the list its state names, once, and both counters are exact |
| SystemLaws.AlwaysSupplied | source/syscall.c:182-230 | from main on value plus queued demand is the initial value plus supply less grants, and never negative, for any non-negative initial value |
| SystemLaws.AlwaysInOrder | source/syscall.c:151-230 | from main on, as long as kills of waiters are harmless, nobody was or can be overtaken |
| SystemLaws.AlwaysTight | source/syscall.c:182-229 | from main on, without kills of waiters, requests are grants and then the queue, and the head of a queue cannot be served |
| SystemLaws.FirstIsAncestor | source/initial.c:72-101 | every live process descends from the first |
| SystemLaws.FirstDeadAllDead | source/initial.c:72-101 | once the first process is dead nobody lives and the machine has halted |
| SystemLaws.FirstEndsAll | source/syscall.c:114-124 | the first process can terminate itself at any time, and that halts the machine; as written unless a descendant is ready |
| SystemLaws.ReadyChildSoon | source/syscall.c:48-54 | one CREATEPROCESS after main the running process has a ready descendant |
| ExactTimes.ChargesAlways | source/scheduler.c:70-92 | from main on both accounts of every process as sums: kernel time of the handlers it entered and outlived since it was created, cut where one blocked it; global time of its slices that ended |
| TimeAccounting.TimesAlways | source/scheduler.c:70-92 | from main on kernel time is within global time for who does not run, and within it plus the current slice for who does |
| TimeAccounting.UserTimeAlways | source/syscall.c:346-351 | in every state from main on, what get_cputime computes for the running process, and exactly when that is below zero |
| TimeAccounting.UserTimeWraps | source/syscall.c:346-351 | what get_cputime computes for the first process after its first system call, and that it is below zero iff the handler took time |

## Left out

- KillIsExact: of the kernel as written only for victims without a ready proper descendant; `KillKeepsIff` shows this is the exact condition.
- TerminateProcess: of the kernel as written, asks that no proper descendant of the victim be ready; `KillKeepsIff` shows this is the exact condition. In the repaired kernel there is none.
- LookforProgeny: asks the same of the process it finds; beyond that the methods for `terminate_children` and `KillEndsIff` say what happens.
- SyscallHandler: asks the same, of the kernel as written, of a step that kills, and what CreateProcess asks of one that creates.
- TrapHandler: asks the same, of the kernel as written.
- SemaphoreOperation: asks the same of weight 0, which kills the caller.
- InterruptHandler: asks what ServeDevice asks of a step in which a device signals.
- CreateProcess: asks for a counter below 4135583744; above it the loop of pid_generator does not end.
- InsertBlocked: NULL arguments, for which the source returns no value, are excluded; so is outBlocked of a process whose p_cursem is NULL.
- ServeDevice: a device signals only while somebody waits for it or its semaphore is positive; the source dereferences the head of an empty queue otherwise (source/interrupts.c:108-110).
- Device registers, acknowledgements, `find_dnum` and the command half of `io_devop`: hardware input and output. The semaphore half is a SEMOP on a device address; terminal interrupts are device signals, one semaphore a step.
- Processor states, `copy_state`, LDST, status bits, handler areas and the passing up of traps: a load ends a step, and a trap with its own handler is the event `Plain`, which only costs time; the moment between the two charges of a privileged call in user mode is not told apart.
- The interval timer: only `pseudoclockflag` and `pseudo_start` are modelled, not when the interrupt comes.
- Interrupts inside a system call, which `io_devop` lets in (source/syscall.c:361): handlers are atomic.
- 32-bit wrap-around of semaphore values, counters and clock readings: these are unbounded; pid_generator alone is in 32-bit arithmetic. The clock does not run backwards.
- Writes of user processes to semaphore words: after their static initialisation only the kernel writes them.
- arch.h is not part of this model: MAX_DEVICES is 49, as source/syscall.c:375 says, and CLOCK_SEM is taken to be MAX_DEVICES - 1, the semaphore that `wait_clock` uses.
- `clist_pop` (include/clist.h:58), which names a macro that does not exist.
- The address of device_sem is any positive number.
