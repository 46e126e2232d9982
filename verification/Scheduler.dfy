/** The scheduler (source/scheduler.c). */
module Scheduler {
  import opened Clist
  import opened Forests
  import opened Lists
  import opened Processes
  import opened Model
  import opened ModelInvariant
  import opened Memory
  import opened PcbQueues
  import opened WeightedSemaphores
  import opened Syscalls

  /** deadlock_detection */
  method DeadlockDetection(k: Kernel)
    requires k.Core()
    modifies k`mode
    ensures k.Core() && k.Abs() == Deadlock(old(k.Abs()))
  {
    hide Rep;
    if k.processCount == 0 {
      k.mode := Halted;
    } else if k.softBlockCount == 0 && k.processCount > 0 {
      k.mode := Panicked;
    } else if k.softBlockCount > 0 && k.processCount > 0 {
      k.mode := Idle;
    }
  }

  lemma PreemptParts(k: KState, first: int)
    requires KInv(k, first) && k.current != NULL
    ensures ReadyWhole(k.l) && Is(k.l, k.current, Off) && 0 <= k.current < |k.l.status|
  {
  }

  /** The running process pays for its slice. */
  method ChargeSlice(k: Kernel, p: int, d: int)
    requires k.Core() && 0 <= p < k.n
    modifies k`l, k`t, k`kt, k`gt, k.pcbs
    ensures k.Core() && k.Abs() == old(k.Abs()).(time := old(k.Abs()).time.(globalTime := Add(old(k.gt), p, d)))
    ensures k.l == old(k.l) && forall x :: 0 <= x < k.n ==> k.pcbs[x].cursem == old(k.pcbs[x].cursem)
  {
    hide Rep;
    SameFields(k.Snap(), p);
    FieldsMean(k.Snap(), p);
    var v := k.pcbs[p];
    SetFields(k, p, v.(globalTime := v.globalTime + d));
  }

  /** current_process leaves the processor. */
  method Leave(k: Kernel)
    requires k.Core()
    modifies k`currentProcess
    ensures k.Core() && k.Abs() == old(k.Abs()).(current := NULL)
  {
    hide Rep;
    k.currentProcess := NULL;
  }

  /** The running process goes to the tail of the ready queue (source/scheduler.c:70-76). */
  method Preempt(k: Kernel, c: Clock, ghost first: int)
    requires k.Core() && KInv(k.Abs(), first) && CurrentClear(k.pcbs[..], k.currentProcess)
    modifies k`l, k`t, k`kt, k`gt, k`readyQueue, k`currentProcess, k.pList, k.pcbs
    ensures k.Core() && k.Abs() == Preempted(old(k.Abs()), c)
  {
    hide Kernel.Core, KInv, ReadyWhole, AfterRequeue, Add;
    if k.currentProcess != NULL {
      CoreSized(k);
      PreemptParts(k.Abs(), first);
      ChargeSlice(k, k.currentProcess, c.preempt - k.startTOD);
      InsertReady(k, k.currentProcess);
      Leave(k);
    }
  }

  /** The next timer interrupt is marked as a pseudo-clock tick if the tick is
      near (source/scheduler.c:78-86). */
  method CheckClock(k: Kernel, c: Clock)
    requires k.Core()
    modifies k`pseudoclockflag, k`pseudoStart
    ensures k.Core() && k.Abs() == ClockChecked(old(k.Abs()), c)
  {
    hide Rep;
    if c.check - k.pseudoStart > SCHED_PSEUDO_CLOCK - SCHED_TIME_SLICE {
      k.pseudoclockflag := true;
      k.pseudoStart := c.tick;
    }
  }

  /** p is loaded. */
  method Load(k: Kernel, p: int, c: Clock)
    requires k.Core()
    modifies k`currentProcess, k`mode, k`startTOD
    ensures k.Core() && k.Abs() == old(k.Abs()).(current := p, mode := Running, time := old(k.Abs()).time.(startTOD := c.start))
  {
    hide Rep;
    k.currentProcess := p;
    k.startTOD := c.start;
    k.mode := Running;
  }

  lemma DispatchParts(k: KState, first: int)
    requires KInv(k, first)
    ensures ReadyWhole(k.l)
    ensures Head(k.l.ready) == NULL <==> k.l.ready == []
  {
    assert k.l.ready != [] ==> k.l.ready[0] in k.l.ready;
  }

  lemma RestOfNothing(l: Lists)
    requires l.ready == []
    ensures AfterDispatch(l) == l
  {
  }

  /** The head of the ready queue is loaded; without one the system may be in
      deadlock (source/scheduler.c:88-96). */
  method Dispatch(k: Kernel, c: Clock, ghost first: int)
    requires k.Core() && KInv(k.Abs(), first) && k.currentProcess == NULL
    modifies k`l, k`readyQueue, k`currentProcess, k`mode, k`startTOD, k.pList
    ensures k.Core() && k.Abs() == Dispatched(old(k.Abs()), c) && CurrentClear(k.pcbs[..], k.currentProcess)
  {
    hide Kernel.Core, KInv, ReadyWhole, AfterDispatch, Deadlock;
    DispatchParts(k.Abs(), first);
    var p := RemoveReady(k);
    if p == NULL {
      RestOfNothing(old(k.l));
      DeadlockDetection(k);
    } else {
      Load(k, p, c);
    }
  }

  /** loadnext */
  method Loadnext(k: Kernel, c: Clock, ghost first: int)
    requires k.Core() && KInv(k.Abs(), first) && CurrentClear(k.pcbs[..], k.currentProcess)
    modifies k`l, k`t, k`kt, k`gt, k`readyQueue, k`currentProcess, k`mode, k`startTOD, k`pseudoclockflag, k`pseudoStart,
      k.pList, k.pcbs
    ensures k.Core() && k.Abs() == LoadNext(old(k.Abs()), c) && CurrentClear(k.pcbs[..], k.currentProcess)
  {
    hide Kernel.Core, KInv, Preempted, ClockChecked, Dispatched, CurrentClear;
    PreemptedKeeps(k.Abs(), c, first);
    Preempt(k, c, first);
    CheckClock(k, c);
    CheckedKeeps(Preempted(old(k.Abs()), c), c, first);
    Dispatch(k, c, first);
  }

  /** The pseudo-clock starts anew. */
  method ResetClock(k: Kernel, c: Clock)
    requires k.Core()
    modifies k`pseudoclockflag, k`pseudoStart
    ensures k.Core()
    ensures k.Abs() == old(k.Abs()).(pseudoclock := false, time := old(k.Abs()).time.(pseudoStart := c.reset))
  {
    hide Rep;
    k.pseudoclockflag := false;
    k.pseudoStart := c.reset;
  }

  ghost method Tick(k: Kernel, now: int)
    requires k.Core()
    modifies k`now
    ensures k.Core() && k.Abs() == old(k.Abs()).(time := old(k.Abs()).time.(now := now))
  {
    hide Rep;
    k.now := now;
  }

  /** The modes of the scheduler. */
  method Choose(k: Kernel, c: Clock, ghost first: int)
    requires k.Core() && Ready4Scheduler(k.Abs(), first) && CurrentClear(k.pcbs[..], k.currentProcess)
    modifies k`l, k`t, k`kt, k`gt, k`readyQueue, k`currentProcess, k`mode, k`startTOD, k`pseudoclockflag, k`pseudoStart,
      k.pList, k.pcbs
    ensures k.Core() && k.Abs() == Chosen(old(k.Abs()), c) && CurrentClear(k.pcbs[..], k.currentProcess)
  {
    hide Kernel.Core, KInv, LoadNext, CurrentClear;
    if k.flag == START {
      ResetClock(k, c);
      ResetKeeps(old(k.Abs()), c, first);
      Loadnext(k, c, first);
    } else if k.flag == RESET {
      ResetClock(k, c);
      ResetKeeps(old(k.Abs()), c, first);
      Loadnext(k, c, first);
    } else if k.flag == LOADNEXT {
      Loadnext(k, c, first);
    } else if k.flag == LOADCURRENT {
      // the state of the current process is loaded again
    }
  }

  function Chosen(k: KState, c: Clock): KState {
    match k.flag
    case LOADCURRENT => k
    case LOADNEXT => LoadNext(k, c)
    case _ => LoadNext(k.(pseudoclock := false, time := k.time.(pseudoStart := c.reset)), c)
  }

  lemma ScheduleMeans(k: KState, c: Clock)
    ensures Chosen(k, c).(time := Chosen(k, c).time.(now := c.start)) == Model.Schedule(k, c)
  {
  }

  /** scheduler */
  method Schedule(k: Kernel, c: Clock, ghost first: int)
    requires k.Core() && Ready4Scheduler(k.Abs(), first) && CurrentClear(k.pcbs[..], k.currentProcess)
    modifies k`l, k`t, k`kt, k`gt, k`readyQueue, k`currentProcess, k`mode, k`startTOD, k`pseudoclockflag, k`pseudoStart, k`now,
      k.pList, k.pcbs
    ensures k.Abs() == Model.Schedule(old(k.Abs()), c) && k.Valid(first) && Settled(k.Abs()) && k.mode != Panicked
  {
    hide Kernel.Core, KInv, Chosen, CurrentClear, Model.Schedule, Settled;
    Choose(k, c, first);
    Tick(k, c.start);
    ScheduleMeans(old(k.Abs()), c);
    ScheduleKeeps(old(k.Abs()), c, first);
  }
}
