/** The exception and interrupt handlers (source/exceptions.c,
    source/interrupts.c), each with the call of the scheduler that ends it. */
module Handlers {
  import opened Clist
  import opened Forests
  import opened Lists
  import opened Semaphores
  import opened Progress
  import opened Processes
  import opened Model
  import opened ModelInvariant
  import opened Memory
  import opened ActiveSemaphores
  import opened WeightedSemaphores
  import opened Syscalls
  import opened Scheduler
  import Pid = PidGenerator

  // ----- entry and exit ----------------------------------------------------------

  /** flag and kernel_start are set. */
  method Enter(k: Kernel, flag: Flag, c: Clock)
    requires k.Core()
    modifies k`flag, k`kernelStart
    ensures k.Core() && k.Abs() == Entered(old(k.Abs()), flag, c)
  {
    hide Rep;
    k.flag := flag;
    k.kernelStart := c.entry;
  }

  /** The process pays for the time in the handler. */
  method ChargeKernel(k: Kernel, p: int, d: int)
    requires k.Core() && 0 <= p < k.n
    modifies k`l, k`t, k`kt, k`gt, k.pcbs
    ensures k.Core() && k.Abs() == old(k.Abs()).(time := old(k.Abs()).time.(kernelTime := Add(old(k.kt), p, d)))
    ensures CurrentClear(old(k.pcbs[..]), k.currentProcess) ==> CurrentClear(k.pcbs[..], k.currentProcess)
  {
    hide Rep;
    SameFields(k.Snap(), p);
    FieldsMean(k.Snap(), p);
    var v := k.pcbs[p];
    SetFields(k, p, v.(kernelTime := v.kernelTime + d));
  }

  /** if (current_process) … kernel_time += … */
  method Charge(k: Kernel, c: Clock)
    requires k.Core() && CurrentOk(k.l, k.currentProcess) && CurrentClear(k.pcbs[..], k.currentProcess)
    modifies k`l, k`t, k`kt, k`gt, k.pcbs
    ensures k.Core() && CurrentClear(k.pcbs[..], k.currentProcess)
    ensures k.mode != Panicked ==> k.Abs() == Charged(old(k.Abs()), c)
  {
    hide Kernel.Core, Add, CurrentClear;
    if k.currentProcess != NULL {
      CoreSized(k);
      ChargeKernel(k, k.currentProcess, c.exit - k.kernelStart);
    }
  }

  // ----- system calls ----------------------------------------------------------------

  /** What an event needs beyond Possible: an unsigned word left in pid. */
  predicate WordsOk(e: Event) {
    e.Create? ==> 0 <= e.base < Pid.WORD
  }

  /** The switch of syscall_handler. */
  method Serve(k: Kernel, e: Event, c: Clock, ghost first: int)
    requires k.Valid(first) && k.currentProcess != NULL && IsSyscall(e) && WordsOk(e)
    requires (e.Create? ==> k.counter < Pid.LARGEST) && (Victim(k.Abs(), e) != NULL ==> KillOk(k.Abs(), Victim(k.Abs(), e)))
    modifies k, k.pList, k.pSib, k.pcbs, k.semds, k.sLink
    ensures k.Core() && k.Abs() == Model.Serve(old(k.Abs()), e, c) && CurrentClear(k.pcbs[..], k.currentProcess)
  {
    hide Kernel.Core, Kernel.Abs, KInv, KillOk, Model.CreateProcess, Model.TerminateProcess, Model.SemaphoreOperation, CurrentClear;
    AbsFields(k);
    match e {
      case Create(base) =>
        var pid := Syscalls.CreateProcess(k, base, first);
      case Terminate(pid) =>
        Syscalls.TerminateProcess(k, pid, first);
      case SemOp(a, w) =>
        Syscalls.SemaphoreOperation(k, a, w, c, first);
      case WaitClock =>
        Syscalls.WaitClock(k, c, first);
      case _ =>
    }
  }

  lemma ServedKeeps(k: KState, e: Event, c: Clock, first: int)
    requires KInv(k, first) && Settled(k) && Possible(k, e, c) && IsSyscall(e)
    ensures var m := Model.Serve(Entered(k, LOADCURRENT, c), e, c);
      && CurrentOk(m.l, m.current) && (m.mode == Panicked ==> Step(k, e, c) == m)
      && (m.mode != Panicked ==> Ready4Scheduler(Charged(m, c), first) && Step(k, e, c) == Model.Schedule(Charged(m, c), c))
  {
    ServeKeeps(Entered(k, LOADCURRENT, c), e, c, first);
    HandleKeeps(k, e, c, first);
  }

  /** syscall_handler, up to the charge. */
  method ServeEvent(k: Kernel, e: Event, c: Clock, ghost first: int)
    requires k.Valid(first) && Settled(k.Abs()) && Possible(k.Abs(), e, c) && IsSyscall(e) && WordsOk(e)
    modifies k, k.pList, k.pSib, k.pcbs, k.semds, k.sLink
    ensures k.Core() && CurrentClear(k.pcbs[..], k.currentProcess)
    ensures k.Abs() == Model.Serve(Entered(old(k.Abs()), LOADCURRENT, c), e, c)
  {
    hide Kernel.Core, KInv, KillOk, Settled, Possible, Model.Serve, Victim, CurrentClear;
    ghost var s := k.Abs();
    EnteredParts(s, e, c, LOADCURRENT, first);
    PossibleCreate(s, e, c);
    Enter(k, LOADCURRENT, c);
    Serve(k, e, c, first);
  }

  lemma PossibleCreate(k: KState, e: Event, c: Clock)
    requires Possible(k, e, c)
    ensures e.Create? ==> k.counter < Pid.LARGEST
  {
  }

  /** syscall_handler: one step of the machine. */
  method SyscallHandler(k: Kernel, e: Event, c: Clock, ghost first: int)
    requires k.Valid(first) && Settled(k.Abs()) && Possible(k.Abs(), e, c) && IsSyscall(e) && WordsOk(e)
    modifies k, k.pList, k.pSib, k.pcbs, k.semds, k.sLink
    ensures k.Abs() == Step(old(k.Abs()), e, c) && k.Valid(first)
    ensures k.mode == Panicked <==> Panics(old(k.Abs()), e)
    ensures k.mode != Panicked ==> Settled(k.Abs())
  {
    hide Kernel.Core, KInv, Settled, Possible, Step, Model.Serve, Model.Schedule, CurrentClear, CurrentOk, Panics, Charged;
    ghost var s := k.Abs();
    StepKeeps(s, e, c, first);
    ServedKeeps(s, e, c, first);
    ServeEvent(k, e, c, first);
    if k.mode != Panicked {
      Charge(k, c);
      Scheduler.Schedule(k, c, first);
    }
  }

  // ----- traps ----------------------------------------------------------------------

  /** A trap of a process without its own handler for it (source/exceptions.c:39-56,
      181-186, 220-235): the process dies. */
  method TrapHandler(k: Kernel, c: Clock, ghost first: int)
    requires k.Valid(first) && Settled(k.Abs()) && Possible(k.Abs(), Trap, c)
    modifies k, k.pList, k.pSib, k.pcbs, k.semds, k.sLink
    ensures k.Abs() == Step(old(k.Abs()), Trap, c) && k.Valid(first) && Settled(k.Abs())
  {
    hide Kernel.Core, KInv, Settled, Possible, Model.Schedule, KillCurrent, KillOk;
    ghost var s := k.Abs();
    EnteredParts(s, Trap, c, k.flag, first);
    HandleKeeps(s, Trap, c, first);
    Enter(k, k.flag, c);
    KillSelf(k, first);
    Scheduler.Schedule(k, c, first);
  }

  // ----- interrupts ------------------------------------------------------------------

  lemma {:induction false} SignalKeeps(k: KState, a: int, first: int)
    requires KInv(k, first) && Val(k.l.sem, a) < 0
    ensures var m := k.(l := AfterRelease(k.l, a, 1));
      KInv(m, first) && Val(m.l.sem, a) == Val(k.l.sem, a) + 1 && Drain(m.l, a) == Drain(k.l, a) && m.l.dev == k.l.dev
  {
    hide KInv, Inv;
    InvOf(k, first);
    SignalledKeeps(k, a, first);
    Shape(k.l, Release(a, 1));
  }

  lemma DevPositive(k: KState, first: int)
    requires KInv(k, first)
    ensures k.l.dev > 0
  {
  }

  /** The loop of timer_handler: one signal after the other, until the value of
      the clock semaphore is no longer negative. */
  method DrainClock(k: Kernel, c: Clock, ghost first: int)
    requires k.Valid(first)
    modifies k, k.pList, k.pSib, k.pcbs, k.semds, k.sLink
    ensures k.Valid(first) && k.Abs() == old(k.Abs()).(l := Drain(old(k.l), ClockSem(old(k.l))))
  {
    hide Rep, KInv, Drain, AfterRelease, CurrentClear;
    ghost var s, a := k.Abs(), ClockSem(k.l);
    while Val(k.word, k.dev + MAX_DEVICES - 1) < 0
      invariant k.Valid(first) && k.Abs() == s.(l := k.l) && Drain(k.l, a) == Drain(s.l, a) && k.l.dev == s.l.dev
      decreases if Val(k.word, a) < 0 then -Val(k.word, a) else 0
    {
      DevPositive(k.Abs(), first);
      SignalKeeps(k.Abs(), a, first);
      Syscalls.SemaphoreOperation(k, k.dev + MAX_DEVICES - 1, 1, c, first);
    }
    DrainEnds(k.l, a);
  }

  lemma DrainEnds(l: Lists, a: int)
    requires Val(l.sem, a) >= 0
    ensures Drain(l, a) == l
  {
  }

  /** timer_handler */
  method ServeTimer(k: Kernel, c: Clock, ghost first: int)
    requires k.Valid(first)
    modifies k, k.pList, k.pSib, k.pcbs, k.semds, k.sLink
    ensures k.Core() && k.Abs() == TimerHandler(old(k.Abs())) && CurrentClear(k.pcbs[..], k.currentProcess)
  {
    hide Rep, KInv, Drain, CurrentClear;
    if k.pseudoclockflag {
      DrainClock(k, c, first);
      k.flag := RESET;
    }
  }

  lemma SomebodyWaits(k: KState, e: Event, c: Clock)
    requires Possible(k, e, c) && e.Device?
    ensures 0 <= e.i < MAX_DEVICES - 1 && (Val(k.l.sem, k.l.dev + e.i) < 1 ==> QueueAt(k.l.queue, k.l.dev + e.i) != [])
  {
  }

  /** The semaphore part of dev_handler and terminal_handler: whoever waits for
      the device gets its status, and is signalled. */
  method ServeDevice(k: Kernel, i: int, c: Clock, ghost first: int)
    requires k.Valid(first) && 0 <= i < MAX_DEVICES - 1
    requires Val(k.l.sem, k.l.dev + i) < 1 ==> QueueAt(k.l.queue, k.l.dev + i) != []
    modifies k, k.pList, k.pSib, k.pcbs, k.semds, k.sLink
    ensures k.Core() && k.Abs() == DevHandler(old(k.Abs()), i) && CurrentClear(k.pcbs[..], k.currentProcess)
  {
    hide Rep, KInv, AfterRelease, CurrentClear;
    if Val(k.word, k.dev + i) < 1 {
      HeadInRange(k.Snap(), k.dev + i);
      var tmp := HeadBlocked(k, k.dev + i);
      assert tmp != NULL;
      DevPositive(k.Abs(), first);
      Syscalls.SemaphoreOperation(k, k.dev + i, 1, c, first);
    }
  }

  lemma InterruptStep(k: KState, e: Event, c: Clock, first: int)
    requires KInv(k, first) && Settled(k) && Possible(k, e, c) && (e.Timer? || e.Device?)
    ensures var m := if e.Timer? then TimerHandler(Entered(k, LOADNEXT, c)) else DevHandler(Entered(k, LOADNEXT, c), e.i);
      && m.mode != Panicked && CurrentOk(m.l, m.current)
      && Ready4Scheduler(Charged(m, c), first) && Step(k, e, c) == Model.Schedule(Charged(m, c), c)
  {
    hide Ready4Scheduler, KillOk, TimerHandler, DevHandler, Charged, Model.Schedule;
    HandleKeeps(k, e, c, first);
    EnteredParts(k, e, c, LOADNEXT, first);
    InterruptKeeps(Entered(k, LOADNEXT, c), e, c, first);
    var m := if e.Timer? then TimerHandler(Entered(k, LOADNEXT, c)) else DevHandler(Entered(k, LOADNEXT, c), e.i);
    ChargedKeeps(m, c, first);
    ReadyCurrent(m, first);
  }

  lemma ReadyCurrent(k: KState, first: int)
    requires Ready4Scheduler(k, first)
    ensures CurrentOk(k.l, k.current)
  {
  }

  /** interrupt_handler, up to the charge. */
  method ServeInterrupt(k: Kernel, e: Event, c: Clock, ghost first: int)
    requires k.Valid(first) && Settled(k.Abs()) && Possible(k.Abs(), e, c) && (e.Timer? || e.Device?)
    modifies k, k.pList, k.pSib, k.pcbs, k.semds, k.sLink
    ensures k.Core() && CurrentClear(k.pcbs[..], k.currentProcess)
    ensures var s := Entered(old(k.Abs()), LOADNEXT, c); k.Abs() == if e.Timer? then TimerHandler(s) else DevHandler(s, e.i)
  {
    hide Kernel.Core, KInv, Settled, Possible, KillOk, TimerHandler, DevHandler, CurrentClear;
    ghost var s := k.Abs();
    EnteredParts(s, e, c, LOADNEXT, first);
    Enter(k, LOADNEXT, c);
    if e.Timer? {
      ServeTimer(k, c, first);
    } else {
      SomebodyWaits(s, e, c);
      ServeDevice(k, e.i, c, first);
    }
  }

  /** interrupt_handler: one step of the machine. */
  method InterruptHandler(k: Kernel, e: Event, c: Clock, ghost first: int)
    requires k.Valid(first) && Settled(k.Abs()) && Possible(k.Abs(), e, c) && (e.Timer? || e.Device?)
    modifies k, k.pList, k.pSib, k.pcbs, k.semds, k.sLink
    ensures k.Abs() == Step(old(k.Abs()), e, c) && k.Valid(first) && Settled(k.Abs())
  {
    hide Kernel.Core, KInv, Settled, Possible, Step, TimerHandler, DevHandler, Model.Schedule, CurrentClear, CurrentOk, Charged;
    InterruptStep(k.Abs(), e, c, first);
    ServeInterrupt(k, e, c, first);
    Charge(k, c);
    Scheduler.Schedule(k, c, first);
  }
}
