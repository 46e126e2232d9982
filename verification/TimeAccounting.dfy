/** What the kernel's clocks say: no process is charged more kernel time than
    it had the processor for. */
module TimeAccounting {
  import opened Clist
  import opened Forests
  import opened Lists
  import opened Semaphores
  import opened Progress
  import opened Processes
  import opened Model
  import opened ModelInvariant
  import opened ModelRuns
  import opened SystemLaws
  import Pid = PidGenerator

  /** At time x the kernel time of every live process is within its global
      time; the running one has also its slice up to x. */
  ghost predicate TimesAt(k: KState, x: int) {
    && |k.time.kernelTime| == |k.time.globalTime| == |k.l.status|
    && forall p {:trigger k.time.kernelTime[p]} {:trigger k.l.status[p]} :: 0 <= p < |k.l.status| && k.l.status[p] != Free ==>
         k.time.kernelTime[p] <= k.time.globalTime[p] + if p == k.current then x - k.time.startTOD else 0
  }

  /** Who lives in l lived in l0, unless it is q; and current is not killed. */
  ghost predicate Outlives(l0: Lists, l: Lists, q: int) {
    && |l.status| == |l0.status|
    && forall p {:trigger l.status[p]} :: 0 <= p < |l.status| && l.status[p] != Free && p != q ==> l0.status[p] != Free
  }

  lemma LiveOutlives(l0: Lists, l: Lists, q: int)
    requires |l.status| == |l0.status| && Live(l) <= Live(l0) + {q}
    ensures Outlives(l0, l, q)
  {
    forall p | 0 <= p < |l.status| && l.status[p] != Free && p != q
      ensures l0.status[p] != Free
    {
      assert p in Live(l);
    }
  }

  /** Nobody else's times change when the caller leaves or somebody dies. */
  lemma OutlivesTimes(k: KState, m: KState, x: int)
    requires TimesAt(k, x) && Outlives(k.l, m.l, NULL) && m.time == k.time
    requires m.current == k.current || (m.current == NULL && (0 <= k.current < |m.l.status| ==> m.l.status[k.current] == Free))
    ensures TimesAt(m, x)
  {
  }

  lemma {:induction false} KillTimes(k: KState, v: int, first: int, x: int)
    requires KInv(k, first) && v in Live(k.l) && KillOk(k, v) && k.current !in Nodes(Below(k.t.forest, v)) && TimesAt(k, x)
    ensures var m := KillTree(k, v); TimesAt(if v == k.current then KillCurrent(k) else m, x)
  {
    hide TimesAt, KillLists, Felled, KInv, KillOk;
    var m := KillTree(k, v);
    KillKeepsLists(k, v, first);
    LiveOutlives(k.l, m.l, NULL);
    if v == k.current {
      OutlivesTimes(k, KillCurrent(k), x);
    } else {
      OutlivesTimes(k, m, x);
    }
  }

  lemma {:induction false} CreateTimes(k: KState, base: int, first: int, x: int)
    requires KInv(k, first) && k.current != NULL && k.counter < Pid.LARGEST && TimesAt(k, x)
    ensures TimesAt(Model.CreateProcess(k, base), x)
  {
    hide TreeInv, Inv, WithChild;
    if k.l.free != [] {
      SpawnFacts(k.l, k.current);
      LiveOutlives(k.l, AfterSpawn(k.l), k.l.free[0]);
      assert k.current in Live(k.l);
    }
  }

  lemma {:induction false} ReleaseTimes(k: KState, a: int, w: int, first: int, x: int)
    requires KInv(k, first) && TimesAt(k, x) && w > 0
    ensures TimesAt(k.(l := AfterRelease(k.l, a, w)), x)
  {
    hide TimesAt, AfterRelease, TreeInv;
    LiveKept(k.l, Release(a, w));
    LiveOutlives(k.l, AfterRelease(k.l, a, w), NULL);
    OutlivesTimes(k, k.(l := AfterRelease(k.l, a, w)), x);
  }

  lemma {:induction false} RequestTimes(k: KState, a: int, w: int, c: Clock, first: int, x: int)
    requires KInv(k, first) && k.current != NULL && TimesAt(k, x) && w < 0 && a != 0
    requires x <= k.time.kernelStart <= c.blockKernel <= c.blockGlobal
    ensures TimesAt(Model.SemaphoreOperation(k, a, w, c), x)
  {
    hide TreeInv, Inv;
    LiveKept(k.l, Request(k.current, a, w));
    LiveOutlives(k.l, AfterRequest(k.l, k.current, a, w), NULL);
  }

  lemma {:induction false} ServeTimes(k: KState, e: Event, c: Clock, first: int, x: int)
    requires KInv(k, first) && k.current != NULL && TimesAt(k, x) && IsSyscall(e)
    requires (e.Create? ==> k.counter < Pid.LARGEST) && (Victim(k, e) != NULL ==> KillOk(k, Victim(k, e)))
    requires x <= k.time.kernelStart <= c.blockKernel <= c.blockGlobal
    ensures TimesAt(Model.Serve(k, e, c), x)
  {
    hide KInv, KillOk, TimesAt, KillTree, KillCurrent, Target;
    SelfVictim(k, first);
    match e
    case Create(base) => CreateTimes(k, base, first, x);
    case Terminate(pid) =>
      TargetMeaning(k, pid, first);
      if Target(k, pid) != NULL {
        KillTimes(k, Target(k, pid), first, x);
      } else {
        PanicTimes(k, x);
      }
    case SemOp(a, w) =>
      PanicTimes(k, x);
      if a != 0 && w == 0 {
        KillTimes(k, k.current, first, x);
      } else if a != 0 && w < 0 {
        RequestTimes(k, a, w, c, first, x);
      } else if a != 0 {
        ReleaseTimes(k, a, w, first, x);
      }
    case WaitClock => RequestTimes(k, ClockSem(k.l), -1, c, first, x);
    case _ =>
  }

  lemma SelfVictim(k: KState, first: int)
    requires KInv(k, first) && k.current != NULL
    ensures k.current in Live(k.l) && k.current !in Nodes(Below(k.t.forest, k.current)) && ClockSem(k.l) != 0
  {
    assert k.current in Live(k.l);
    BelowFacts(k.t.children, k.t.forest, k.current);
  }

  lemma PanicTimes(k: KState, x: int)
    requires TimesAt(k, x)
    ensures TimesAt(k.(mode := Panicked), x)
  {
  }

  lemma {:induction false} DrainTimes(k: KState, first: int, x: int)
    requires KInv(k, first) && TimesAt(k, x)
    ensures TimesAt(TimerHandler(k), x)
  {
    hide Drain, TreeInv, TimesAt;
    DrainKeeps(k.l, ClockSem(k.l));
    LiveOutlives(k.l, Drain(k.l, ClockSem(k.l)), NULL);
    OutlivesTimes(k, TimerHandler(k), x);
  }

  /** The charge at the end of a handler. */
  lemma ChargeTimes(k: KState, c: Clock, x: int)
    requires TimesAt(k, x) && x <= k.time.kernelStart <= c.exit && k.mode != Panicked
    ensures TimesAt(Charged(k, c), c.exit)
  {
  }

  lemma EnterTimes(k: KState, flag: Flag, c: Clock, x: int)
    requires TimesAt(k, x)
    ensures TimesAt(Entered(k, flag, c), x)
  {
  }

  lemma LaterTimes(k: KState, x: int, y: int)
    requires TimesAt(k, x) && x <= y
    ensures TimesAt(k, y)
  {
  }

  lemma {:induction false} HandleTimes(k: KState, e: Event, c: Clock, first: int)
    requires KInv(k, first) && Settled(k) && Possible(k, e, c) && TimesAt(k, k.time.now) && !Panics(k, e)
    ensures TimesAt(Handle(k, e, c), c.exit)
  {
    hide KInv, KillOk, TimesAt, Settled, Ready4Scheduler, KillCurrent, Model.Serve, TimerHandler, DevHandler, Charged;
    var x := k.time.now;
    HandleKeeps(k, e, c, first);
    match e
    case Trap =>
      var m := Entered(k, k.flag, c);
      EnteredParts(k, e, c, k.flag, first);
      EnterTimes(k, k.flag, c, x);
      SelfVictim(m, first);
      TrapTimes(k, m, c, first, x);
    case Timer =>
      var m := Entered(k, LOADNEXT, c);
      EnteredParts(k, e, c, LOADNEXT, first);
      EnterTimes(k, LOADNEXT, c, x);
      DrainTimes(m, first, x);
      InterruptKeeps(m, e, c, first);
      InterruptStart(m, e);
      ChargeTimes(TimerHandler(m), c, x);
    case Device(i) =>
      var m := Entered(k, LOADNEXT, c);
      EnteredParts(k, e, c, LOADNEXT, first);
      EnterTimes(k, LOADNEXT, c, x);
      DeviceTimes(m, i, first, x);
      InterruptKeeps(m, e, c, first);
      InterruptStart(m, e);
      ChargeTimes(DevHandler(m, i), c, x);
    case _ =>
      var m := Entered(k, LOADCURRENT, c);
      EnteredParts(k, e, c, LOADCURRENT, first);
      EnterTimes(k, LOADCURRENT, c, x);
      ServeTimes(m, e, c, first, x);
      ServeStart(m, e, c);
      ChargedKeeps(Model.Serve(m, e, c), c, first);
      ChargeTimes(Model.Serve(m, e, c), c, x);
  }

  lemma TrapTimes(k: KState, m: KState, c: Clock, first: int, x: int)
    requires KInv(m, first) && m.current != NULL && KillOk(m, m.current) && TimesAt(m, x) && x <= c.exit
    requires m.current in Live(m.l) && m.current !in Nodes(Below(m.t.forest, m.current))
    ensures TimesAt(KillCurrent(m), c.exit)
  {
    hide KInv, KillOk, TimesAt, KillCurrent, KillTree;
    KillTimes(m, m.current, first, x);
    LaterTimes(KillCurrent(m), x, c.exit);
  }

  lemma {:induction false} DeviceTimes(k: KState, i: int, first: int, x: int)
    requires KInv(k, first) && TimesAt(k, x)
    ensures TimesAt(DevHandler(k, i), x)
  {
    hide KInv, TimesAt, AfterRelease;
    ReleaseTimes(k, k.l.dev + i, 1, first, x);
  }

  lemma InterruptStart(k: KState, e: Event)
    ensures var m := if e.Timer? then TimerHandler(k) else if e.Device? then DevHandler(k, e.i) else k; m.time == k.time
  {
  }

  lemma ServeStart(k: KState, e: Event, c: Clock)
    requires e.Create? ==> k.counter < Pid.LARGEST
    ensures Model.Serve(k, e, c).time.kernelStart == k.time.kernelStart
  {
  }

  lemma {:induction false} LoadTimes(k: KState, c: Clock, first: int)
    requires KInv(k, first) && TimesAt(k, c.exit) && c.exit <= c.preempt
    ensures TimesAt(LoadNext(k, c), c.start)
  {
    hide Inv, TreeInv;
    var k1 := Preempted(k, c);
    assert TimesAt(k1, c.start) && k1.current == NULL by {
      assert k.current != NULL ==> Is(k.l, k.current, Off);
    }
    var k2 := ClockChecked(k1, c);
    assert TimesAt(k2, c.start);
    PreemptedKeeps(k, c, first);
    CheckedKeeps(k1, c, first);
    DispatchTimes(k2, c, first);
  }

  lemma {:induction false} DispatchTimes(k: KState, c: Clock, first: int)
    requires KInv(k, first) && TimesAt(k, c.start) && k.current == NULL
    ensures TimesAt(Dispatched(k, c), c.start)
  {
    if k.l.ready != [] {
      assert k.l.ready[0] in k.l.ready;
    }
  }

  lemma {:induction false} ScheduleTimes(k: KState, c: Clock, first: int)
    requires KInv(k, first) && TimesAt(k, c.exit) && c.exit <= c.preempt && c.exit <= c.start
    ensures TimesAt(Model.Schedule(k, c), c.start) && Model.Schedule(k, c).time.now == c.start
  {
    hide KInv, TimesAt, LoadNext;
    if k.flag == LOADCURRENT {
      LaterTimes(k, c.exit, c.start);
      NowTimes(k, c.start, c.start);
    } else {
      var k1 := if k.flag == START || k.flag == RESET then k.(pseudoclock := false, time := k.time.(pseudoStart := c.reset)) else k;
      ResetTimes(k, c, c.exit);
      ResetKeeps(k, c, first);
      LoadTimes(k1, c, first);
      NowTimes(LoadNext(k1, c), c.start, c.start);
    }
  }

  lemma ResetTimes(k: KState, c: Clock, x: int)
    requires TimesAt(k, x)
    ensures TimesAt(k.(pseudoclock := false, time := k.time.(pseudoStart := c.reset)), x)
  {
  }

  lemma NowTimes(k: KState, now: int, x: int)
    requires TimesAt(k, x)
    ensures TimesAt(k.(time := k.time.(now := now)), x)
  {
  }

  lemma {:induction false} StepTimes(k: KState, e: Event, c: Clock, first: int)
    requires KInv(k, first) && Settled(k) && Possible(k, e, c) && TimesAt(k, k.time.now)
    ensures TimesAt(Step(k, e, c), Step(k, e, c).time.now)
  {
    hide KInv, TimesAt, Settled, KillOk, Handle, Model.Schedule, Panics, Ready4Scheduler;
    HandleKeeps(k, e, c, first);
    if Panics(k, e) {
      PanickedTimes(k, e, c);
    } else {
      HandleTimes(k, e, c, first);
      ReadyInv(Handle(k, e, c), first);
      ScheduleTimes(Handle(k, e, c), c, first);
    }
  }

  lemma ReadyInv(k: KState, first: int)
    requires Ready4Scheduler(k, first)
    ensures KInv(k, first)
  {
  }

  lemma PanickedTimes(k: KState, e: Event, c: Clock)
    requires Possible(k, e, c) && Panics(k, e) && TimesAt(k, k.time.now)
    requires Handle(k, e, c).mode == Panicked && Handle(k, e, c).l == k.l && Handle(k, e, c).current == k.current
    ensures TimesAt(Handle(k, e, c), Handle(k, e, c).time.now)
  {
    TargetEntered(k, e, c);
  }

  lemma {:induction false} RunTimes(k: KState, es: seq<Move>, first: int)
    requires KInv(k, first) && Ended(k) && Runnable(k, es) && TimesAt(k, k.time.now)
    ensures TimesAt(Reached(k, es), Reached(k, es).time.now)
    decreases |es|
  {
    if es != [] {
      StepKeeps(k, es[0].0, es[0].1, first);
      StepTimes(k, es[0].0, es[0].1, first);
      RunTimes(Step(k, es[0].0, es[0].1), es[1..], first);
    }
  }

  /** With a clock that does not run backwards, whatever happened since main: a
      live process that does not run has no more kernel time than global time,
      and the running one would not, were it charged for its slice now. */
  lemma {:induction false} TimesAlways(mc: Machine, base: nat, c: Clock, es: seq<Move>, p: int)
    requires History(mc, base, c, es) && Ordered(c, c.entry) && p in Live(State(mc, base, c, es).l)
    ensures var m := State(mc, base, c, es);
      && 0 <= p < |m.time.kernelTime| == |m.time.globalTime|
      && m.time.kernelTime[p] <= m.time.globalTime[p] + if p == m.current then m.time.now - m.time.startTOD else 0
  {
    FirstKeeps(mc, base, c);
    BootedAt(mc, base, c);
    RunTimes(Booted(mc, base, c), es, 0);
  }

  // ----- get_cputime ------------------------------------------------------------

  /** get_cputime (source/syscall.c:346-351): the user time it reports. */
  function UserTime(k: KState, p: int): int
    requires 0 <= p < |k.time.globalTime| && p < |k.time.kernelTime|
  {
    k.time.globalTime[p] - k.time.kernelTime[p]
  }

  /** A process that has just been loaded reports no negative time. */
  lemma {:induction false} LoadedUser(k: KState, e: Event, c: Clock, first: int)
    requires KInv(k, first) && Settled(k) && Possible(k, e, c) && TimesAt(k, k.time.now)
    requires Reschedules(k, e, c) && Step(k, e, c).mode == Running
    ensures var m := Step(k, e, c); 0 <= m.current < |m.time.kernelTime| == |m.time.globalTime| && UserTime(m, m.current) >= 0
  {
    hide KInv, Settled, Handle, NoReadyBelow, Panics;
    StepKeeps(k, e, c, first);
    StepTimes(k, e, c, first);
    LoadedNow(k, e, c);
    RunningIsOff(Step(k, e, c), first);
  }

  lemma LoadedNow(k: KState, e: Event, c: Clock)
    requires (e.Create? ==> k.counter < Pid.LARGEST) && Reschedules(k, e, c) && Step(k, e, c).mode == Running
    requires Step(k, e, c).current != NULL
    ensures Step(k, e, c).time.startTOD == c.start == Step(k, e, c).time.now
  {
    hide Handle;
  }

  lemma RunningIsOff(k: KState, first: int)
    requires KInv(k, first) && (k.mode == Panicked || Settled(k)) && k.mode == Running
    ensures k.current != NULL && 0 <= k.current < |k.l.status| && k.l.status[k.current] != Free
  {
  }

  /** The switch of syscall_handler leaves the times of the caller alone, if the
      caller goes on. */
  lemma {:induction false} ServeUser(k: KState, e: Event, c: Clock, first: int)
    requires KInv(k, first) && k.current != NULL && k.flag == LOADCURRENT && IsSyscall(e) && TimesAt(k, k.time.now)
    requires e.Create? ==> k.counter < Pid.LARGEST
    requires Model.Serve(k, e, c).flag == LOADCURRENT
    ensures var m := Model.Serve(k, e, c);
      && m.current == k.current && 0 <= k.current < |k.time.kernelTime| == |m.time.kernelTime| == |m.time.globalTime|
      && |k.time.globalTime| == |k.time.kernelTime| && UserTime(m, k.current) == UserTime(k, k.current)
      && m.time.kernelStart == k.time.kernelStart
  {
    hide Inv, TreeInv, KillLists, Felled, Target;
    InvOf(k, first);
    if e.Create? && k.l.free != [] {
      SpawnFacts(k.l, k.current);
      assert k.current in Live(k.l);
    }
  }

  /** A system call from which the caller goes on costs it the time in the
      handler, and gives it none. */
  lemma {:induction false} GoesOnUser(k: KState, e: Event, c: Clock, first: int)
    requires KInv(k, first) && Settled(k) && Possible(k, e, c) && TimesAt(k, k.time.now)
    requires !Reschedules(k, e, c) && !Panics(k, e)
    ensures var m := Step(k, e, c);
      && k.mode == Running && m.mode == Running && m.current == k.current
      && 0 <= k.current < |k.time.kernelTime| == |k.time.globalTime| == |m.time.kernelTime| == |m.time.globalTime|
      && UserTime(m, k.current) == UserTime(k, k.current) - (c.exit - c.entry)
  {
    hide KInv, Settled, KillOk, Panics, TimesAt, Model.Serve, TimerHandler, DevHandler, KillCurrent;
    HandleKeeps(k, e, c, first);
    EnteredParts(k, e, c, LOADCURRENT, first);
    GoesOnIsSyscall(k, e, c, first);
    var s := Entered(k, LOADCURRENT, c);
    EnterTimes(k, LOADCURRENT, c, k.time.now);
    ServeUser(s, e, c, first);
    ReadyRuns(Handle(k, e, c), first);
    WasRunning(k, e, c);
  }

  lemma WasRunning(k: KState, e: Event, c: Clock)
    requires Settled(k) && Possible(k, e, c) && IsSyscall(e)
    ensures k.mode == Running && k.current != NULL
  {
  }

  lemma ReadyRuns(k: KState, first: int)
    requires Ready4Scheduler(k, first) && k.flag == LOADCURRENT
    ensures k.mode == Running && k.current != NULL
  {
  }

  /** Traps and interrupts reschedule. */
  lemma GoesOnIsSyscall(k: KState, e: Event, c: Clock, first: int)
    requires KInv(k, first) && Settled(k) && Possible(k, e, c) && !Reschedules(k, e, c) && !Panics(k, e)
    ensures IsSyscall(e) && Model.Serve(Entered(k, LOADCURRENT, c), e, c).flag == LOADCURRENT
    ensures Handle(k, e, c) == Charged(Model.Serve(Entered(k, LOADCURRENT, c), e, c), c)
  {
    hide KInv, Settled, KillOk, Panics, Model.Serve, TimerHandler, DevHandler, KillTree, Ready4Scheduler;
    HandleKeeps(k, e, c, first);
    if e.Timer? || e.Device? {
      InterruptReschedules(k, e, c, first);
    }
  }

  /** What the running process would have reported when it was last loaded. */
  ghost function AtLoad(k: KState, es: seq<Move>, u: int): int
    requires Runnable(k, es)
    decreases |es|
  {
    if es == [] then u
    else
      var m := Step(k, es[0].0, es[0].1);
      AtLoad(m, es[1..],
        if !Reschedules(k, es[0].0, es[0].1) then u
        else if 0 <= m.current < |m.time.kernelTime| && m.current < |m.time.globalTime| then UserTime(m, m.current) else 0)
  }

  /** The time its handlers took since. */
  ghost function ChargedSince(k: KState, es: seq<Move>, s: int): int
    requires Runnable(k, es)
    decreases |es|
  {
    if es == [] then s
    else
      ChargedSince(Step(k, es[0].0, es[0].1), es[1..],
        if Reschedules(k, es[0].0, es[0].1) then 0 else s + (es[0].1.exit - es[0].1.entry))
  }

  /** u and s account for what the running process reports. */
  ghost predicate Accounted(k: KState, u: int, s: int) {
    k.mode == Running ==>
      && 0 <= k.current < |k.time.kernelTime| && k.current < |k.time.globalTime|
      && UserTime(k, k.current) == u - s && u >= 0
  }

  lemma {:induction false} RunUser(k: KState, es: seq<Move>, first: int, u: int, s: int)
    requires KInv(k, first) && Ended(k) && Runnable(k, es) && TimesAt(k, k.time.now) && Accounted(k, u, s)
    ensures Accounted(Reached(k, es), AtLoad(k, es, u), ChargedSince(k, es, s))
    decreases |es|
  {
    hide KInv, TimesAt, Reschedules, Step, NoReadyBelow, Panics;
    if es != [] {
      var e, c := es[0].0, es[0].1;
      var m := Step(k, e, c);
      StillSettled(k, e, c);
      StepKeeps(k, e, c, first);
      StepTimes(k, e, c, first);
      if Reschedules(k, e, c) {
        if m.mode == Running {
          LoadedUser(k, e, c, first);
        }
        RunUser(m, es[1..], first,
          if 0 <= m.current < |m.time.kernelTime| && m.current < |m.time.globalTime| then UserTime(m, m.current) else 0, 0);
      } else {
        if !Panics(k, e) {
          GoesOnUser(k, e, c, first);
        }
        RunUser(m, es[1..], first, u, s + (c.exit - c.entry));
      }
    }
  }

  lemma StillSettled(k: KState, e: Event, c: Clock)
    requires Ended(k) && Possible(k, e, c)
    ensures Settled(k)
  {
  }

  /** What get_cputime computes for the running process, in every state: what it
      would have reported when it was last loaded, which is never negative, less
      the time its handlers took since.  So it is below zero, and wraps, iff
      they took longer than that. */
  lemma {:induction false} UserTimeAlways(mc: Machine, base: nat, c: Clock, es: seq<Move>)
    requires History(mc, base, c, es) && Ordered(c, c.entry) && State(mc, base, c, es).mode == Running
    ensures var m, k := State(mc, base, c, es), Booted(mc, base, c);
      && 0 <= m.current < |m.time.kernelTime| && m.current < |m.time.globalTime| && AtLoad(k, es, 0) >= 0
      && UserTime(m, m.current) == AtLoad(k, es, 0) - ChargedSince(k, es, 0)
      && (UserTime(m, m.current) < 0 <==> ChargedSince(k, es, 0) > AtLoad(k, es, 0))
  {
    hide KInv, Booted, Runnable, TimesAt, Reached;
    var k := Booted(mc, base, c);
    FirstKeeps(mc, base, c);
    BootedTimes(mc, base, c);
    BootedAt(mc, base, c);
    RunUser(k, es, 0, 0, 0);
  }

  lemma BootedAt(mc: Machine, base: nat, c: Clock)
    requires Sound(mc) && Ordered(c, c.entry)
    ensures var k := Booted(mc, base, c); TimesAt(k, k.time.now) && |k.time.kernelTime| == mc.n
  {
    hide KInv, Settled;
    var k := FirstProcess(PoweredOn(mc), base);
    FirstKeeps(mc, base, c);
    FirstTimesAt(mc, base, c.exit);
    ScheduleTimes(k, c, 0);
    BootedTimes(mc, base, c);
  }

  lemma FirstTimesAt(mc: Machine, base: nat, x: int)
    requires Sound(mc)
    ensures TimesAt(FirstProcess(PoweredOn(mc), base), x)
  {
  }

  /** It leaves the running slice out, but not the kernel time charged in it:
      after the first system call it is below zero, and wraps, iff the handler
      took any time. */
  lemma {:induction false} UserTimeWraps(mc: Machine, base: nat, c: Clock, d: Clock)
    requires Sound(mc)
    ensures var m := Step(Booted(mc, base, c), Plain, d);
      && m.current == 0 && |m.time.globalTime| == |m.time.kernelTime| == mc.n
      && UserTime(m, 0) == d.entry - d.exit && (UserTime(m, 0) < 0 <==> d.exit > d.entry)
  {
    hide KInv, Settled, InitialLists, NoTree, Zeroed, AfterDispatch, AfterSpawn;
    BootedTimes(mc, base, c);
  }

  lemma {:induction false} BootedTimes(mc: Machine, base: nat, c: Clock)
    requires Sound(mc)
    ensures var k := Booted(mc, base, c);
      k.current == 0 && k.mode == Running && k.time.kernelTime == k.time.globalTime == seq(mc.n, i => 0)
  {
    hide KInv, Settled, NoTree, Zeroed, AfterDispatch, AfterSpawn, InitialLists;
    FirstKeeps(mc, base, c);
    InitialFacts(mc);
    PoweredOnInv(mc);
    assert Put(seq(mc.n, i => 0), 0, 0) == seq(mc.n, i => 0);
  }
}
