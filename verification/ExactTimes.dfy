/** What every process is charged, from main on, told from the readings of the
    clock and from who was running. */
module ExactTimes {
  import opened Clist
  import opened Lists
  import opened Semaphores
  import opened Progress
  import opened Processes
  import opened Model
  import opened ModelInvariant
  import opened ModelRuns
  import opened SystemLaws
  import opened ClockLaws
  import opened CallLaws
  import opened WordLaws
  import opened TimeAccounting
  import Pid = PidGenerator

  /** The kernel time that e costs p: the handler, up to where p blocks if it
      does.  A handler that kills its caller, or panics, costs nobody. */
  ghost function HandlerTook(k: KState, e: Event, c: Clock, p: int): int {
    if p != k.current || EndsCaller(k, e) || Panics(k, e) then 0
    else if Blocks(k, e) then c.blockKernel - c.entry
    else c.exit - c.entry
  }

  /** The slice of p that e ends, if it began at s. */
  ghost function SliceEnded(k: KState, e: Event, c: Clock, p: int, s: int): int {
    if p != k.current then 0
    else if Blocks(k, e) then c.blockGlobal - s
    else if IsInterrupt(e) then c.preempt - s
    else 0
  }

  ghost predicate Sized(k: KState, n: nat) {
    |k.time.kernelTime| == |k.time.globalTime| == |k.l.status| == n
  }

  // ----- one step ---------------------------------------------------------------------

  lemma {:induction false} StepSize(k: KState, e: Event, c: Clock, first: int)
    requires KInv(k, first) && Settled(k) && Possible(k, e, c)
    ensures |Step(k, e, c).l.status| == |k.l.status|
  {
    hide KInv, Settled, Step, OpsOf, Run, Legal, KillOk;
    InvOf(k, first);
    StepIsRun(k, e, c, first);
    InvOverRuns(k.l, OpsOf(k, e, c));
  }

  lemma CurrentRange(k: KState, first: int)
    requires KInv(k, first) && k.current != NULL
    ensures 0 <= k.current < |k.l.status| && k.current !in k.l.free
  {
  }

  /** What the handler of e charges to p. */
  ghost predicate Charges(k: KState, e: Event, c: Clock, p: int, n: nat, m: Times)
    requires Sized(k, n) && 0 <= p < n
  {
    && |m.kernelTime| == |m.globalTime| == n
    && m.kernelTime[p] == (if Born(k, e, p) then 0 else k.time.kernelTime[p] + HandlerTook(k, e, c, p))
    && m.globalTime[p] ==
         if Born(k, e, p) then 0 else k.time.globalTime[p] + if IsInterrupt(e) then 0 else SliceEnded(k, e, c, p, k.time.startTOD)
  }

  lemma CreateCharges(k: KState, e: Event, c: Clock, p: int, n: nat)
    requires e.Create? && k.counter < Pid.LARGEST && k.mode == Running && 0 <= k.current < n
    requires Sized(k, n) && 0 <= p < n && k.current !in k.l.free
    ensures Charges(k, e, c, p, n, Handle(k, e, c).time)
  {
    hide AfterSpawn, WithChild;
    assert k.l.free != [] ==> k.l.free[0] in k.l.free;
  }

  lemma SemaphoreCharges(k: KState, e: Event, c: Clock, p: int, n: nat)
    requires (e.SemOp? || e.WaitClock?) && k.mode == Running && 0 <= k.current < n && Sized(k, n) && 0 <= p < n && k.l.dev > 0
    ensures Charges(k, e, c, p, n, Handle(k, e, c).time)
  {
    hide AfterRequest, AfterRelease, KillLists, Felled;
  }

  lemma KillCharges(k: KState, e: Event, c: Clock, p: int, n: nat)
    requires (e.Terminate? || e.Plain?) && k.mode == Running && 0 <= k.current < n && Sized(k, n) && 0 <= p < n
    requires e.Terminate? ==> (EndsCaller(k, e) <==> Target(k, e.pid) == k.current)
    ensures Charges(k, e, c, p, n, Handle(k, e, c).time)
  {
    hide KillLists, Felled, Target;
    TargetEntered(k, e, c);
  }

  /** The charges of a system call. */
  lemma {:induction false} ServeCharges(k: KState, e: Event, c: Clock, first: int, p: int, n: nat)
    requires KInv(k, first) && Settled(k) && Possible(k, e, c) && Sized(k, n) && 0 <= p < n && IsSyscall(e)
    ensures Charges(k, e, c, p, n, Handle(k, e, c).time)
  {
    hide KInv, KillOk, Handle, Charges, Settled, Target, EndsCaller;
    CallerIs(k, e, c, first);
    CurrentRange(k, first);
    if e.Create? {
      CreateCharges(k, e, c, p, n);
    } else if e.SemOp? || e.WaitClock? {
      SemaphoreCharges(k, e, c, p, n);
    } else {
      if e.Terminate? {
        OwnPid(k, e.pid, first);
        SelfEnds(k, e);
      }
      KillCharges(k, e, c, p, n);
    }
  }

  lemma SelfEnds(k: KState, e: Event)
    requires e.Terminate?
    ensures EndsCaller(k, e) <==> e.pid == 0 || e.pid == PidAt(k.t, k.current)
  {
  }

  lemma {:induction false} OtherCharges(k: KState, e: Event, c: Clock, first: int, p: int, n: nat)
    requires KInv(k, first) && Settled(k) && Possible(k, e, c) && Sized(k, n) && 0 <= p < n && !IsSyscall(e)
    ensures Charges(k, e, c, p, n, Handle(k, e, c).time)
  {
    hide KInv, KillOk, KillLists, AfterRelease, Drain, Felled;
  }

  lemma PreemptCharges(k: KState, c: Clock, p: int)
    requires 0 <= p < |k.time.globalTime| && k.current < |k.time.globalTime|
    ensures var m := Preempted(k, c).time;
      && m.kernelTime == k.time.kernelTime && |m.globalTime| == |k.time.globalTime| && m.startTOD == k.time.startTOD
      && m.globalTime[p] == k.time.globalTime[p] + if p == k.current then c.preempt - k.time.startTOD else 0
  {
    hide AfterRequeue;
  }

  lemma LoadCharges(k: KState, c: Clock)
    ensures var m := Dispatched(ClockChecked(k, c), c);
      && m.time.kernelTime == k.time.kernelTime && m.time.globalTime == k.time.globalTime
      && (k.current == NULL && m.current != NULL ==> m.time.startTOD == c.start)
  {
    hide AfterDispatch;
  }

  /** The charge for the slice that the scheduler ends. */
  lemma SchedulerCharges(k: KState, c: Clock, p: int)
    requires 0 <= p < |k.time.globalTime| && k.current < |k.time.globalTime|
    ensures var m := Model.Schedule(k, c);
      && m.time.kernelTime == k.time.kernelTime && |m.time.globalTime| == |k.time.globalTime|
      && m.time.globalTime[p] == k.time.globalTime[p] +
           (if k.flag != LOADCURRENT && p == k.current then c.preempt - k.time.startTOD else 0)
      && (m.current != NULL ==> m.time.startTOD == if k.flag == LOADCURRENT then k.time.startTOD else c.start)
  {
    hide Preempted, ClockChecked, Dispatched;
    var k1 := if k.flag == START || k.flag == RESET then k.(pseudoclock := false, time := k.time.(pseudoStart := c.reset)) else k;
    PreemptCharges(k1, c, p);
    NobodyLeft(k1, c);
    LoadCharges(Preempted(k1, c), c);
  }

  lemma NobodyLeft(k: KState, c: Clock)
    ensures Preempted(k, c).current == NULL
  {
  }

  lemma Kinds(k: KState, e: Event)
    ensures e.Trap? ==> EndsCaller(k, e) && !Blocks(k, e)
    ensures IsInterrupt(e) ==> !EndsCaller(k, e) && !Blocks(k, e) && !Panics(k, e)
    ensures Panics(k, e) ==> IsSyscall(e)
    ensures IsSyscall(e) || e.Trap? <==> !IsInterrupt(e)
  {
  }

  lemma BornIsFree(k: KState, e: Event, p: int)
    requires Born(k, e, p)
    ensures p in k.l.free && IsSyscall(e)
  {
  }

  lemma {:induction false} StepCharges(k: KState, e: Event, c: Clock, first: int, p: int, n: nat)
    requires KInv(k, first) && Settled(k) && Possible(k, e, c) && Sized(k, n) && 0 <= p < n
    ensures var m := Step(k, e, c);
      && Sized(m, n)
      && m.time.kernelTime[p] == (if Born(k, e, p) then 0 else k.time.kernelTime[p] + HandlerTook(k, e, c, p))
      && m.time.globalTime[p] == (if Born(k, e, p) then 0 else k.time.globalTime[p] + SliceEnded(k, e, c, p, k.time.startTOD))
      && (m.mode != Panicked && m.current != NULL ==> m.time.startTOD == if Loads(k, e) then c.start else k.time.startTOD)
  {
    hide KInv, Settled, KillOk, Handle, Model.Schedule, HandlerTook, Panics, EndsCaller, Blocks;
    StepSize(k, e, c, first);
    HandleKeeps(k, e, c, first);
    Kinds(k, e);
    if Born(k, e, p) {
      BornIsFree(k, e, p);
    }
    if k.current != NULL {
      CurrentRange(k, first);
    }
    if IsSyscall(e) {
      ServeCharges(k, e, c, first, p, n);
    } else {
      OtherCharges(k, e, c, first, p, n);
    }
    if !Panics(k, e) {
      HandlerLeaves(k, e, c, first);
      SchedulerCharges(Handle(k, e, c), c, p);
    }
  }

  // ----- runs ----------------------------------------------------------------------------

  /** The kernel time of p, if it was t at the beginning. */
  ghost function KernelSpent(k: KState, es: seq<Move>, p: int, t: int): int
    requires Runnable(k, es)
    decreases |es|
  {
    if es == [] then t
    else
      var e, c := es[0].0, es[0].1;
      KernelSpent(Step(k, e, c), es[1..], p, if Born(k, e, p) then 0 else t + HandlerTook(k, e, c, p))
  }

  /** The global time of p, if it was t at the beginning, and whoever ran then
      was loaded at s. */
  ghost function GlobalSpent(k: KState, es: seq<Move>, p: int, t: int, s: int): int
    requires Runnable(k, es)
    decreases |es|
  {
    if es == [] then t
    else
      var e, c := es[0].0, es[0].1;
      GlobalSpent(Step(k, e, c), es[1..], p,
        if Born(k, e, p) then 0 else t + SliceEnded(k, e, c, p, s), if Loads(k, e) then c.start else s)
  }

  lemma {:induction false} RunCharges(k: KState, es: seq<Move>, first: int, p: int, n: nat, s: int)
    requires KInv(k, first) && Ended(k) && Runnable(k, es) && Sized(k, n) && 0 <= p < n
    requires k.mode != Panicked && k.current != NULL ==> k.time.startTOD == s
    ensures var m := Reached(k, es);
      && Sized(m, n) && m.time.kernelTime[p] == KernelSpent(k, es, p, k.time.kernelTime[p])
      && m.time.globalTime[p] == GlobalSpent(k, es, p, k.time.globalTime[p], s)
    decreases |es|
  {
    hide KInv, Step, KillOk, Born, HandlerTook, Loads, Settled;
    if es != [] {
      var e, c := es[0].0, es[0].1;
      OnlyEnded(k, es);
      StepKeeps(k, e, c, first);
      StepCharges(k, e, c, first, p, n);
      StaysLoaded(k, e, c, first);
      RunCharges(Step(k, e, c), es[1..], first, p, n, if Loads(k, e) then c.start else s);
    }
  }

  lemma StaysLoaded(k: KState, e: Event, c: Clock, first: int)
    requires KInv(k, first) && Settled(k) && Possible(k, e, c)
    ensures !Loads(k, e) ==> k.current != NULL
  {
    hide KInv, Settled, KillOk, EndsCaller, Blocks;
    if !IsInterrupt(e) {
      CallerIs(k, e, c, first);
    }
  }

  lemma {:induction false} BootedSized(mc: Machine, base: nat, c: Clock)
    requires Sound(mc)
    ensures var k := Booted(mc, base, c);
      && Sized(k, mc.n) && k.time.kernelTime == k.time.globalTime == seq(mc.n, i => 0) && k.time.startTOD == c.start
  {
    hide KInv, Settled, InitialLists, AfterSpawn, Model.Schedule;
    FirstKeeps(mc, base, c);
    BootedTimes(mc, base, c);
    BootedLists(mc, base, c);
    SchedulerCharges(FirstProcess(PoweredOn(mc), base), c, 0);
  }

  /** From main on every process has been charged, since it was created, exactly
      the handlers it entered and outlived, as kernel time, and exactly its
      slices that ended, as global time, whoever was killed. */
  lemma {:induction false} ChargesAlways(mc: Machine, base: nat, c: Clock, es: seq<Move>, p: int)
    requires History(mc, base, c, es) && 0 <= p < mc.n
    ensures var m, k := State(mc, base, c, es), Booted(mc, base, c);
      && |m.time.kernelTime| == |m.time.globalTime| == mc.n
      && m.time.kernelTime[p] == KernelSpent(k, es, p, 0)
      && m.time.globalTime[p] == GlobalSpent(k, es, p, 0, c.start)
      && UserTime(m, p) == GlobalSpent(k, es, p, 0, c.start) - KernelSpent(k, es, p, 0)
  {
    hide KInv, Booted, Runnable, Settled, Reached, KernelSpent, GlobalSpent;
    FirstKeeps(mc, base, c);
    BootedSized(mc, base, c);
    RunCharges(Booted(mc, base, c), es, 0, p, mc.n, c.start);
  }
}
