/** Runs of the machine: every step is a run of elementary operations, so the
    laws of the lists hold along any sequence of exceptions and interrupts. */
module ModelRuns {
  import opened Clist
  import opened Forests
  import opened Lists
  import opened Semaphores
  import opened Progress
  import opened Processes
  import opened Model
  import opened ModelInvariant
  import Pid = PidGenerator

  // ----- a step is a run of operations ----------------------------------------------

  function KillOps(t: Tree, v: int, repaired: bool): seq<Op> {
    if repaired then KillEach(Dead(t, v)) else ReapOps(Post(Below(t.forest, v))) + [Kill(v)]
  }

  /** What the handler of e does to the lists. */
  function HandlerOps(k: KState, e: Event): seq<Op> {
    match e
    case Create(_) => if k.l.free == [] then [] else [Spawn]
    case Terminate(pid) => if Target(k, pid) == NULL then [] else KillOps(k.t, Target(k, pid), k.repaired)
    case SemOp(a, w) =>
      if a == 0 then [] else if w == 0 then KillOps(k.t, k.current, k.repaired)
      else if w < 0 then [Request(k.current, a, w)] else [Release(a, w)]
    case WaitClock => [Request(k.current, ClockSem(k.l), -1)]
    case Plain => []
    case Trap => KillOps(k.t, k.current, k.repaired)
    case Timer =>
      var v := Val(k.l.sem, ClockSem(k.l));
      if k.pseudoclock && v < 0 then Signals(ClockSem(k.l), -v) else []
    case Device(i) => if Val(k.l.sem, k.l.dev + i) < 1 then [Release(k.l.dev + i, 1)] else []
  }

  /** What the scheduler does to them: k is the state it finds. */
  function SchedulerOps(k: KState): seq<Op> {
    if k.mode == Panicked || k.flag == LOADCURRENT then []
    else
      (if k.current == NULL then [] else [Requeue(k.current)]) +
      (if k.current == NULL && k.l.ready == [] then [] else [Dispatch])
  }

  ghost function OpsOf(k: KState, e: Event, c: Clock): seq<Op>
    requires e.Create? ==> k.counter < Pid.LARGEST
  {
    HandlerOps(k, e) + SchedulerOps(Handle(k, e, c))
  }

  lemma {:induction false} RunConcat(l: Lists, xs: seq<Op>, ys: seq<Op>)
    ensures Run(l, xs + ys) == Run(Run(l, xs), ys)
    ensures Legal(l, xs + ys) <==> Legal(l, xs) && Legal(Run(l, xs), ys)
    decreases |xs|
  {
    if xs == [] {
      assert xs + ys == ys;
    } else {
      assert (xs + ys)[1..] == xs[1..] + ys && (xs + ys)[0] == xs[0];
      RunConcat(Apply(l, xs[0]), xs[1..], ys);
    }
  }

  lemma RunOne(l: Lists, op: Op)
    ensures Run(l, [op]) == Apply(l, op) && (Legal(l, [op]) <==> Enabled(l, op))
  {
    assert [op][1..] == [];
  }

  lemma NotRepaired(k: KState, v: int)
    requires KillOk(k, v) && !k.repaired
    ensures NoReadyBelow(k, v)
  {
  }

  lemma StillLives(l: Lists, ks: seq<int>, v: int, m: Lists)
    requires Died(l, ks, m) && v !in ks && v in Live(l)
    ensures Enabled(m, Kill(v))
  {
    assert m.status[v] == l.status[v];
  }

  /** The kill of v, as operations. */
  lemma {:induction false} KillIsRun(k: KState, v: int, first: int)
    requires KInv(k, first) && v in Live(k.l) && KillOk(k, v) && k.current !in Nodes(Below(k.t.forest, v))
    ensures Run(k.l, KillOps(k.t, v, k.repaired)) == KillLists(k.l, k.t, v, k.repaired) && Legal(k.l, KillOps(k.t, v, k.repaired))
  {
    hide KInv, KillOk, Victims, Condemned, Distinct, AfterKill, AfterReap, Post, Below, Legal;
    InvOf(k, first);
    var ks := Post(Below(k.t.forest, v));
    if k.repaired {
      DeadAreSubtree(k, v, first);
      KillsKeep(k.l, Dead(k.t, v));
    } else {
      NotRepaired(k, v);
      BelowIsBlocked(k, v, first);
      ReapsKeep(k.l, ks);
      RunConcat(k.l, ReapOps(ks), [Kill(v)]);
      RunOne(Reaps(k.l, ks), Kill(v));
      StillLives(k.l, ks, v, Reaps(k.l, ks));
    }
  }

  lemma {:induction false} VictimIsRun(k: KState, e: Event, c: Clock, first: int)
    requires KInv(k, first) && Settled(k) && Possible(k, e, c) && Victim(k, e) != NULL
    ensures var v := Victim(k, e);
      Run(k.l, KillOps(k.t, v, k.repaired)) == KillLists(k.l, k.t, v, k.repaired) && Legal(k.l, KillOps(k.t, v, k.repaired))
  {
    if e.Terminate? {
      TargetMeaning(k, e.pid, first);
    } else {
      assert k.current in Live(k.l);
      BelowFacts(k.t.children, k.t.forest, k.current);
    }
    KillIsRun(k, Victim(k, e), first);
  }

  /** The lists that the handler of e leaves. */
  ghost function HandledLists(k: KState, e: Event): Lists {
    match e
    case Create(_) => AfterSpawn(k.l)
    case SemOp(a, w) =>
      if a == 0 then k.l else if w == 0 then KillLists(k.l, k.t, k.current, k.repaired)
      else if w < 0 then AfterRequest(k.l, k.current, a, w) else AfterRelease(k.l, a, w)
    case WaitClock => AfterRequest(k.l, k.current, ClockSem(k.l), -1)
    case Terminate(pid) => if Target(k, pid) == NULL then k.l else KillLists(k.l, k.t, Target(k, pid), k.repaired)
    case Plain => k.l
    case Trap => KillLists(k.l, k.t, k.current, k.repaired)
    case Timer => if k.pseudoclock then Drain(k.l, ClockSem(k.l)) else k.l
    case Device(i) => if Val(k.l.sem, k.l.dev + i) < 1 then AfterRelease(k.l, k.l.dev + i, 1) else k.l
  }

  lemma HandleLists(k: KState, e: Event, c: Clock)
    requires Possible(k, e, c) && k.l.dev > 0 && (k.mode == Running ==> k.current != NULL)
    ensures Handle(k, e, c).l == HandledLists(k, e)
  {
    hide KillLists, Drain, AfterRelease, AfterRequest, Target, Felled, KillOk;
    TargetEntered(k, e, c);
  }

  lemma {:induction false} HandlerIsRun(k: KState, e: Event, c: Clock, first: int)
    requires KInv(k, first) && Settled(k) && Possible(k, e, c)
    ensures Handle(k, e, c).l == Run(k.l, HandlerOps(k, e)) && Legal(k.l, HandlerOps(k, e))
  {
    hide KInv, KillLists, Drain, Target, KillOk, KillOps, Legal, Run;
    OffCurrent(k, e, c, first);
    HandleLists(k, e, c);
    if Victim(k, e) != NULL {
      VictimIsRun(k, e, c, first);
    }
    RunNone(k.l);
    match e
    case Create(_) => RunOne(k.l, Spawn);
    case SemOp(a, w) =>
      RunOne(k.l, Request(k.current, a, w));
      RunOne(k.l, Release(a, w));
    case WaitClock => RunOne(k.l, Request(k.current, ClockSem(k.l), -1));
    case Timer => DrainIsRun(k.l, ClockSem(k.l));
    case Device(i) => RunOne(k.l, Release(k.l.dev + i, 1));
    case _ =>
  }

  lemma DrainIsRun(l: Lists, a: int)
    ensures var ops := if Val(l.sem, a) < 0 then Signals(a, -Val(l.sem, a)) else []; Run(l, ops) == Drain(l, a) && Legal(l, ops)
  {
    DrainIsSignals(l, a, if Val(l.sem, a) < 0 then -Val(l.sem, a) else 0);
  }

  lemma RunNone(l: Lists)
    ensures Run(l, []) == l && Legal(l, [])
  {
  }

  lemma OffCurrent(k: KState, e: Event, c: Clock, first: int)
    requires KInv(k, first) && Settled(k) && Possible(k, e, c)
    ensures k.l.dev > 0 && (k.mode == Running ==> Is(k.l, k.current, Off) && k.current != NULL)
    ensures k.mode == Running || e.Timer? || e.Device?
  {
  }

  lemma {:induction false} SchedulerIsRun(k: KState, c: Clock, first: int)
    requires Ready4Scheduler(k, first) && k.mode != Panicked
    ensures Model.Schedule(k, c).l == Run(k.l, SchedulerOps(k)) && Legal(k.l, SchedulerOps(k))
  {
    hide Inv, TreeInv, AfterRequeue, AfterDispatch, Run, Legal;
    var xs := if k.current == NULL then [] else [Requeue(k.current)];
    var ys := if k.current == NULL && k.l.ready == [] then [] else [Dispatch];
    var l1 := if k.current == NULL then k.l else AfterRequeue(k.l, k.current);
    RunNone(k.l);
    RunOne(k.l, Requeue(k.current));
    RunConcat(k.l, xs, ys);
    RunNone(l1);
    RunOne(l1, Dispatch);
    RequeueReady(k.l, k.current);
  }

  lemma RequeueReady(l: Lists, p: int)
    ensures AfterRequeue(l, p).ready == l.ready + [p]
  {
  }

  /** A step is a run of operations. */
  lemma {:induction false} StepIsRun(k: KState, e: Event, c: Clock, first: int)
    requires KInv(k, first) && Settled(k) && Possible(k, e, c)
    ensures Step(k, e, c).l == Run(k.l, OpsOf(k, e, c)) && Legal(k.l, OpsOf(k, e, c))
  {
    hide KInv, Settled, Handle, HandlerOps, SchedulerOps, Run, Legal, Panics;
    HandlerIsRun(k, e, c, first);
    HandleKeeps(k, e, c, first);
    var m := Handle(k, e, c);
    RunConcat(k.l, HandlerOps(k, e), SchedulerOps(m));
    if m.mode == Panicked {
      PanicOps(m);
    } else {
      SchedulerIsRun(m, c, first);
    }
  }

  lemma PanicOps(k: KState)
    requires k.mode == Panicked
    ensures SchedulerOps(k) == [] && Run(k.l, []) == k.l && Legal(k.l, [])
  {
  }

  // ----- runs of events -----------------------------------------------------------------

  /** An event and the readings of the clock in its step. */
  type Move = (Event, Clock)

  ghost predicate Runnable(k: KState, es: seq<Move>)
    decreases |es|
  {
    es == [] || (Possible(k, es[0].0, es[0].1) && Runnable(Step(k, es[0].0, es[0].1), es[1..]))
  }

  ghost function Reached(k: KState, es: seq<Move>): KState
    requires Runnable(k, es)
    decreases |es|
  {
    if es == [] then k else Reached(Step(k, es[0].0, es[0].1), es[1..])
  }

  /** The operations along a run. */
  ghost function Ops(k: KState, es: seq<Move>): seq<Op>
    requires Runnable(k, es)
    decreases |es|
  {
    if es == [] then [] else OpsOf(k, es[0].0, es[0].1) + Ops(Step(k, es[0].0, es[0].1), es[1..])
  }

  /** A PANIC leaves the process that caused it running. */
  ghost predicate Ended(k: KState) {
    if k.mode == Panicked then k.current != NULL else Settled(k)
  }

  /** Every run keeps the invariant, and is a run of operations. */
  lemma {:induction false} RunKeeps(k: KState, es: seq<Move>, first: int)
    requires KInv(k, first) && Ended(k) && Runnable(k, es)
    ensures var m := Reached(k, es);
      KInv(m, first) && Ended(m) && m.l == Run(k.l, Ops(k, es)) && Legal(k.l, Ops(k, es))
    decreases |es|
  {
    if es != [] {
      var e, c := es[0].0, es[0].1;
      var m := Step(k, e, c);
      StepKeeps(k, e, c, first);
      StepIsRun(k, e, c, first);
      RunConcat(k.l, OpsOf(k, e, c), Ops(m, es[1..]));
      RunKeeps(m, es[1..], first);
    }
  }

  // ----- round robin over steps ------------------------------------------------------------

  lemma {:induction false} DispatchesConcat(xs: seq<Op>, ys: seq<Op>)
    ensures Dispatches(xs + ys) == Dispatches(xs) + Dispatches(ys)
  {
    if xs == [] {
      assert xs + ys == ys;
    } else {
      assert (xs + ys)[1..] == xs[1..] + ys;
      DispatchesConcat(xs[1..], ys);
    }
  }

  lemma {:induction false} ReapsDispatchNothing(ks: seq<int>)
    ensures Dispatches(ReapOps(ks)) == 0
  {
    if ks != [] {
      ReapsDispatchNothing(ks[1..]);
      assert ReapOps(ks)[1..] == ReapOps(ks[1..]);
    }
  }

  lemma {:induction false} KillsDispatchNothing(ks: seq<int>)
    ensures Dispatches(KillEach(ks)) == 0
  {
    if ks != [] {
      KillsDispatchNothing(ks[1..]);
      assert KillEach(ks)[1..] == KillEach(ks[1..]);
    }
  }

  lemma {:induction false} SignalsDispatchNothing(a: int, n: nat)
    ensures Dispatches(Signals(a, n)) == 0
  {
    if n > 0 {
      SignalsDispatchNothing(a, n - 1);
      assert Signals(a, n)[1..] == Signals(a, n - 1);
    }
  }

  lemma OneDispatchesNothing(op: Op)
    requires !op.Dispatch?
    ensures Dispatches([op]) == 0
  {
    assert [op][1..] == [];
  }

  lemma {:induction false} HandlerDispatchesNothing(k: KState, e: Event)
    ensures Dispatches(HandlerOps(k, e)) == 0
  {
    forall v
      ensures Dispatches(KillOps(k.t, v, k.repaired)) == 0
    {
      var ks := Post(Below(k.t.forest, v));
      ReapsDispatchNothing(ks);
      KillsDispatchNothing(Dead(k.t, v));
      OneDispatchesNothing(Kill(v));
      DispatchesConcat(ReapOps(ks), [Kill(v)]);
    }
    forall op: Op | !op.Dispatch?
      ensures Dispatches([op]) == 0
    {
      OneDispatchesNothing(op);
    }
    var v := Val(k.l.sem, ClockSem(k.l));
    if v < 0 {
      SignalsDispatchNothing(ClockSem(k.l), -v);
    }
  }

  lemma {:induction false} NothingServed(l: Lists, ops: seq<Op>, p: int)
    requires Dispatches(ops) == 0
    ensures !Served(l, ops, p)
    decreases |ops|
  {
    if ops != [] {
      NothingServed(Apply(l, ops[0]), ops[1..], p);
    }
  }

  /** The handler of e lets the scheduler load another process. */
  ghost predicate Reschedules(k: KState, e: Event, c: Clock)
    requires e.Create? ==> k.counter < Pid.LARGEST
  {
    Handle(k, e, c).mode != Panicked && Handle(k, e, c).flag != LOADCURRENT
  }

  lemma {:induction false} HandlerKeepsPlace(k: KState, e: Event, c: Clock, p: int, first: int)
    requires KInv(k, first) && Settled(k) && Possible(k, e, c) && p in k.l.ready && Kill(p) !in HandlerOps(k, e)
    ensures var m := Handle(k, e, c); p in m.l.ready && IndexOf(m.l.ready, p) <= IndexOf(k.l.ready, p)
  {
    hide Handle, HandlerOps, KInv, Settled, Possible, Run, Legal, Served;
    InvOf(k, first);
    HandlerIsRun(k, e, c, first);
    HandlerDispatchesNothing(k, e);
    NothingServed(k.l, HandlerOps(k, e), p);
    RoundRobin(k.l, HandlerOps(k, e), p);
  }

  lemma {:induction false} LoadMovesForward(k: KState, c: Clock, p: int, first: int)
    requires KInv(k, first) && p in k.l.ready
    ensures var m := LoadNext(k, c);
      m.current == p || (p in m.l.ready && IndexOf(m.l.ready, p) + 1 <= IndexOf(k.l.ready, p))
  {
    hide Inv, TreeInv;
    var l1 := if k.current == NULL then k.l else AfterRequeue(k.l, k.current);
    if k.current != NULL {
      RequeueKeeps(k.l, k.current);
      ReadyMovesForward(k.l, Requeue(k.current), p);
    }
    if l1.ready[0] != p {
      ReadyMovesForward(l1, Dispatch, p);
    }
  }

  /** A ready process is loaded by the step, or keeps its place, or moves up. */
  lemma {:induction false} StepMovesForward(k: KState, e: Event, c: Clock, p: int, first: int)
    requires KInv(k, first) && Settled(k) && Possible(k, e, c) && p in k.l.ready && Kill(p) !in HandlerOps(k, e)
    ensures var m := Step(k, e, c);
      m.current == p ||
      (p in m.l.ready && IndexOf(m.l.ready, p) + (if Reschedules(k, e, c) then 1 else 0) <= IndexOf(k.l.ready, p))
  {
    hide Handle, HandlerOps, KInv, Settled, LoadNext, Panics;
    HandlerKeepsPlace(k, e, c, p, first);
    HandleKeeps(k, e, c, first);
    var m := Handle(k, e, c);
    if Reschedules(k, e, c) {
      var k1 := if m.flag == START || m.flag == RESET then m.(pseudoclock := false, time := m.time.(pseudoStart := c.reset)) else m;
      ResetKeeps(m, c, first);
      LoadMovesForward(k1, c, p, first);
    }
  }

  /** How often the scheduler loaded another process. */
  ghost function Turns(k: KState, es: seq<Move>): nat
    requires Runnable(k, es)
    decreases |es|
  {
    if es == [] then 0
    else (if Reschedules(k, es[0].0, es[0].1) then 1 else 0) + Turns(Step(k, es[0].0, es[0].1), es[1..])
  }

  function Interrupts(es: seq<Move>): nat {
    if es == [] then 0 else (if es[0].0.Timer? || es[0].0.Device? then 1 else 0) + Interrupts(es[1..])
  }

  /** Some step of the run loads p. */
  ghost predicate GetsProcessor(k: KState, es: seq<Move>, p: int)
    requires Runnable(k, es)
    decreases |es|
  {
    es != [] && var m := Step(k, es[0].0, es[0].1); m.current == p || GetsProcessor(m, es[1..], p)
  }

  /** Some step of the run kills p, as the process named by the kill. */
  ghost predicate IsKilled(k: KState, es: seq<Move>, p: int)
    requires Runnable(k, es)
    decreases |es|
  {
    es != [] && (Kill(p) in HandlerOps(k, es[0].0) || IsKilled(Step(k, es[0].0, es[0].1), es[1..], p))
  }

  /** Bounded waiting: whatever is created, woken, blocked or killed meanwhile,
      a process at index i of the ready queue runs after i + 1 turns of the
      scheduler at most, unless it is killed. */
  lemma {:induction false} BoundedWaiting(k: KState, es: seq<Move>, p: int, first: int)
    requires KInv(k, first) && Ended(k) && Runnable(k, es) && p in k.l.ready && !IsKilled(k, es, p)
    ensures Turns(k, es) > IndexOf(k.l.ready, p) ==> GetsProcessor(k, es, p)
    decreases |es|
  {
    if es != [] {
      var e, c := es[0].0, es[0].1;
      StepKeeps(k, e, c, first);
      StepMovesForward(k, e, c, p, first);
      if Step(k, e, c).current != p {
        BoundedWaiting(Step(k, e, c), es[1..], p, first);
      }
    }
  }

  /** Every interrupt is a turn. */
  lemma {:induction false} InterruptsAreTurns(k: KState, es: seq<Move>, first: int)
    requires KInv(k, first) && Ended(k) && Runnable(k, es)
    ensures Interrupts(es) <= Turns(k, es)
    decreases |es|
  {
    if es != [] {
      var e, c := es[0].0, es[0].1;
      StepKeeps(k, e, c, first);
      if e.Timer? || e.Device? {
        InterruptReschedules(k, e, c, first);
      }
      InterruptsAreTurns(Step(k, e, c), es[1..], first);
    }
  }

  lemma InterruptReschedules(k: KState, e: Event, c: Clock, first: int)
    requires KInv(k, first) && Settled(k) && Possible(k, e, c) && (e.Timer? || e.Device?)
    ensures Reschedules(k, e, c)
  {
    hide KInv, Settled, Possible, KillOk, Ready4Scheduler, TimerHandler, DevHandler, Charged;
    EnteredParts(k, e, c, LOADNEXT, first);
    InterruptKeeps(Entered(k, LOADNEXT, c), e, c, first);
    ChargedKeeps(if e.Timer? then TimerHandler(Entered(k, LOADNEXT, c)) else DevHandler(Entered(k, LOADNEXT, c), e.i), c, first);
    HandleKeeps(k, e, c, first);
  }
}
