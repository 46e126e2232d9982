/** Two runs from main: one to a kill that does not end, and one in which a
    request overtakes another. */
module Scenarios {
  import opened Clist
  import opened Forests
  import opened Lists
  import opened Semaphores
  import opened Progress
  import opened Processes
  import opened Model
  import opened ModelInvariant
  import opened ModelRuns
  import opened SystemLaws
  import opened Memory
  import opened ReadyDescendants
  import Pid = PidGenerator

  /** All readings of the clock are x. */
  function At(x: int): Clock {
    Clock(x, x, x, x, x, x, x, x, x)
  }

  /** The lists and the tree of a running process, at time 0. */
  ghost predicate Runs(k: KState, l: Lists, t: Tree, p: int, counter: nat) {
    k.mode == Running && k.current == p && p != NULL && k.l == l && k.t == t && k.counter == counter && k.time.now == 0 && !k.repaired
  }

  lemma CreateStep(k: KState, base: nat, l: Lists, t: Tree, p: int, counter: nat)
    requires Runs(k, l, t, p, counter) && l.free != [] && counter < Pid.LARGEST
    ensures Possible(k, Create(base), At(0))
    ensures Runs(Step(k, Create(base), At(0)), AfterSpawn(l), WithChild(t, p, l.free[0], Pid.PidOf(base, counter)), p, counter + 1)
  {
    hide AfterSpawn, WithChild;
  }

  lemma TimerStep(k: KState, l: Lists, t: Tree, p: int, counter: nat)
    requires Runs(k, l, t, p, counter) && Val(l.sem, ClockSem(l)) >= 0 && l.ready != [] && l.ready[0] != NULL
    ensures Possible(k, Timer, At(0))
    ensures Runs(Step(k, Timer, At(0)), AfterDispatch(AfterRequeue(l, p)), t, l.ready[0], counter)
  {
    hide AfterDispatch;
  }

  lemma BlockStep(k: KState, l: Lists, t: Tree, p: int, counter: nat, a: int, w: int)
    requires Runs(k, l, t, p, counter) && a != 0 && w < 0 && Val(l.sem, a) + w < 0 && l.ready != [] && l.ready[0] != NULL
    ensures Possible(k, SemOp(a, w), At(0))
    ensures Runs(Step(k, SemOp(a, w), At(0)), AfterDispatch(AfterRequest(l, p, a, w)), t, l.ready[0], counter)
  {
    hide AfterDispatch;
  }

  lemma TakeStep(k: KState, l: Lists, t: Tree, p: int, counter: nat, a: int, w: int)
    requires Runs(k, l, t, p, counter) && a != 0 && w < 0 && Val(l.sem, a) + w >= 0
    ensures Possible(k, SemOp(a, w), At(0))
    ensures Runs(Step(k, SemOp(a, w), At(0)), AfterRequest(l, p, a, w), t, p, counter)
  {
  }

  lemma KillStep(k: KState, l: Lists, t: Tree, p: int, counter: nat, pid: int, v: int)
    requires Runs(k, l, t, p, counter) && Target(k, pid) == v && v != p && v != NULL && NoReadyBelow(k, v)
    ensures Possible(k, Terminate(pid), At(0))
    ensures Runs(Step(k, Terminate(pid), At(0)), KillLists(l, t, v, false), Felled(t, v), p, counter)
  {
    hide KillLists, Felled, Target, NoReadyBelow;
    TargetEntered(k, Terminate(pid), At(0));
  }

  /** One move more at the front of a run. */
  lemma MoveFirst(k: KState, e: Event, es: seq<Move>)
    requires Possible(k, e, At(0)) && Runnable(Step(k, e, At(0)), es)
    ensures Runnable(k, [(e, At(0))] + es) && Reached(k, [(e, At(0))] + es) == Reached(Step(k, e, At(0)), es)
  {
    hide Possible, Step;
    var all: seq<Move> := [(e, At(0))] + es;
    assert all[0] == (e, At(0)) && all[1..] == es;
  }

  // ----- the machine after main --------------------------------------------------------

  lemma InitialThree(mc: Machine)
    requires mc.n >= 3
    ensures var l := AfterDispatch(AfterSpawn(InitialLists(mc)));
      && l.ready == [] && l.queue == map[] && |l.free| == mc.n - 1 && l.free[0] == 1 && l.free[1] == 2
      && |l.status| == |l.need| == mc.n && l.status[0] == Off && l.dev == mc.dev && l.sem == Zeroed(mc.words, mc.dev, MAX_DEVICES)
    ensures AfterSpawn(InitialLists(mc)).ready == [0] && InitialLists(mc).free[0] == 0
  {
    hide Zeroed;
    var l := InitialLists(mc);
    assert l.free[1..][0] == l.free[1] == 1 && l.free[1..][1] == l.free[2] == 2;
    assert AfterSpawn(l).ready == [0];
  }

  /** The first process runs; two PCBs are free at least. */
  lemma {:induction false} BootedThree(mc: Machine, base: nat)
    requires mc.n >= 3 && mc.dev > 0 && !mc.repaired
    ensures var k := Booted(mc, base, At(0));
      && Runs(k, k.l, k.t, 0, 1)
      && k.l.ready == [] && k.l.queue == map[] && |k.l.free| == mc.n - 1 && k.l.free[0] == 1 && k.l.free[1] == 2
      && |k.l.status| == |k.l.need| == mc.n && k.l.status[0] == Off && k.l.dev == mc.dev
      && k.t.forest == Cons(0, Nil, Nil) && |k.t.children| == |k.t.pid| == mc.n && k.t.pid[0] == Pid.PidOf(base, 0)
  {
    hide KInv, Settled, InitialLists, AfterSpawn, AfterDispatch, Zeroed;
    FirstKeeps(mc, base, At(0));
    InitialThree(mc);
  }

  // ----- a kill that does not end ---------------------------------------------------------

  /** The first process creates 1; preempted, it waits while 1 creates 2; in
      turn preempted, 1 waits behind its child. */
  lemma HangLists(l0: Lists)
    requires l0.ready == [] && |l0.free| >= 2 && l0.free[0] == 1 && l0.free[1] == 2 && |l0.status| >= 3 && l0.status[0] == Off
    ensures var l1 := AfterSpawn(l0);
      var l2 := AfterDispatch(AfterRequeue(l1, 0));
      var l3 := AfterSpawn(l2);
      var l4 := AfterDispatch(AfterRequeue(l3, 1));
      && l1.ready == [1] && l2.ready == [0] && l2.free[0] == 2 && l2.free != [] && l3.ready == [0, 2] && l4.ready == [2, 1]
      && l4.sem == l3.sem == l2.sem == l1.sem == l0.sem && l4.dev == l3.dev == l2.dev == l1.dev == l0.dev
      && |l4.status| == |l0.status| && l4.status[0] == Off && l4.status[1] == Ready && l4.status[2] == Ready
  {
    var l1 := AfterSpawn(l0);
    assert l1.ready == [1];
    var m1 := AfterRequeue(l1, 0);
    assert m1.ready == [1, 0] && m1.ready[1..] == [0];
    var l2 := AfterDispatch(m1);
    assert l2.free == l0.free[1..];
    var l3 := AfterSpawn(l2);
    assert l3.ready == [0, 2];
    var m3 := AfterRequeue(l3, 1);
    assert m3.ready == [0, 2, 1] && m3.ready[1..] == [2, 1];
  }

  lemma HangTree(t0: Tree, pid1: int, pid2: int)
    requires t0.forest == Cons(0, Nil, Nil) && |t0.children| == |t0.pid| >= 3
    ensures var t := WithChild(WithChild(t0, 0, 1, pid1), 1, 2, pid2);
      && t.forest == Cons(0, Cons(1, Cons(2, Nil, Nil), Nil), Nil)
      && PidAt(t, 0) == t0.pid[0] && PidAt(t, 1) == pid1 && PidAt(t, 2) == pid2
  {
    assert Graft(t0.forest, 0, 1) == Cons(0, Cons(1, Nil, Nil), Nil);
    assert Graft(Cons(1, Nil, Nil), 1, 2) == Cons(1, Cons(2, Nil, Nil), Nil);
    assert Graft(Cons(0, Cons(1, Nil, Nil), Nil), 1, 2) == Cons(0, Cons(1, Cons(2, Nil, Nil), Nil), Nil);
  }

  function HangRun(b1: nat, b2: nat): seq<Move> {
    [(Create(b1), At(0))] + ([(Timer, At(0))] + ([(Create(b2), At(0))] + ([(Timer, At(0))] + [])))
  }

  /** Four steps after main the first process runs, and its child 1 is ready
      behind a child 2 of its own. */
  lemma {:induction false} HangReached(mc: Machine, base: nat, b1: nat, b2: nat)
    requires mc.n >= 3 && mc.dev > 0 && !mc.repaired
    ensures History(mc, base, At(0), HangRun(b1, b2))
    ensures var k := State(mc, base, At(0), HangRun(b1, b2));
      && k.mode == Running && k.current == 0 && k.l.ready == [2, 1] && |k.l.status| >= 3
      && k.l.status[1] == Ready && k.l.status[2] == Ready
      && k.t.forest == Cons(0, Cons(1, Cons(2, Nil, Nil), Nil), Nil)
      && PidAt(k.t, 0) == Pid.PidOf(base, 0) && PidAt(k.t, 1) == Pid.PidOf(b1, 1)
  {
    hide Step, Possible, AfterSpawn, AfterDispatch, AfterRequeue, WithChild, Booted, PidAt, Pid.PidOf, Reached, Runnable;
    BootedThree(mc, base);
    var k0 := Booted(mc, base, At(0));
    var pid1, pid2 := Pid.PidOf(b1, 1), Pid.PidOf(b2, 2);
    ClockIsZero(mc, base);
    HangLists(k0.l);
    HangTree(k0.t, pid1, pid2);
    var l1, t1 := AfterSpawn(k0.l), WithChild(k0.t, 0, 1, pid1);
    var l2 := AfterDispatch(AfterRequeue(l1, 0));
    var l3, t3 := AfterSpawn(l2), WithChild(t1, 1, 2, pid2);
    CreateStep(k0, b1, k0.l, k0.t, 0, 1);
    var k1 := Step(k0, Create(b1), At(0));
    TimerStep(k1, l1, t1, 0, 2);
    var k2 := Step(k1, Timer, At(0));
    CreateStep(k2, b2, l2, t1, 1, 2);
    var k3 := Step(k2, Create(b2), At(0));
    TimerStep(k3, l3, t3, 1, 3);
    var k4 := Step(k3, Timer, At(0));
    NoMove(k4);
    MoveFirst(k3, Timer, []);
    MoveFirst(k2, Create(b2), [(Timer, At(0))] + []);
    MoveFirst(k1, Timer, [(Create(b2), At(0))] + ([(Timer, At(0))] + []));
    MoveFirst(k0, Create(b1), [(Timer, At(0))] + ([(Create(b2), At(0))] + ([(Timer, At(0))] + [])));
  }

  lemma NoMove(k: KState)
    ensures Runnable(k, []) && Reached(k, []) == k
  {
  }

  lemma ClockIsZero(mc: Machine, base: nat)
    requires Sound(mc)
    ensures var l := Booted(mc, base, At(0)).l; Val(l.sem, ClockSem(l)) == 0
  {
    BootedLists(mc, base, At(0));
  }

  lemma HangTarget(k: KState, pid: int)
    requires k.current == 0 && k.t.forest == Cons(0, Cons(1, Cons(2, Nil, Nil), Nil), Nil)
    requires pid != 0 && pid != PidAt(k.t, 0) && PidAt(k.t, 1) == pid
    ensures Target(k, pid) == 1 && Post(Below(k.t.forest, 1)) == [2]
  {
    var g := Cons(1, Cons(2, Nil, Nil), Nil);
    assert Below(k.t.forest, 0) == g;
    assert Pre(g)[0] == 1;
    assert Nodes(g) == {1, 2};
    assert Below(k.t.forest, 1) == Below(g, 1) == Cons(2, Nil, Nil);
  }

  /** Now the first process terminates its child.  Whatever the memory is when
      lookfor_progeny comes to its outProcQ, with 2 freed and still linked, the
      scan for 1 does not end. */
  lemma {:induction false} KillHangs(mc: Machine, base: nat, b1: nat, b2: nat, m: Mem)
    requires mc.n >= 3 && mc.dev > 0 && !mc.repaired
    requires Pid.PidOf(b1, 1) != 0 && Pid.PidOf(b1, 1) != Pid.PidOf(base, 0)
    requires History(mc, base, At(0), HangRun(b1, b2))
    requires var k := State(mc, base, At(0), HangRun(b1, b2));
      var dead := Reaps(k.l, Post(Below(k.t.forest, Target(k, Pid.PidOf(b1, 1)))));
      Rep(m) && m.l.ready == dead.ready && m.l.status == dead.status
    ensures Target(State(mc, base, At(0), HangRun(b1, b2)), Pid.PidOf(b1, 1)) == 1 && !ScanEnds(m, 1)
  {
    hide Rep, State, Pid.PidOf, Booted;
    HangReached(mc, base, b1, b2);
    var k := State(mc, base, At(0), HangRun(b1, b2));
    HangTarget(k, Pid.PidOf(b1, 1));
    ReapsFree(k.l, [2]);
    HangScan(m);
  }

  lemma HangScan(m: Mem)
    requires Rep(m) && m.l.ready == [2, 1] && Is(m.l, 2, Free) && Is(m.l, 1, Ready)
    ensures !ScanEnds(m, 1)
  {
    assert m.l.ready[0] == 2 && m.l.ready[1] == 1 && m.readyQueue == 1;
    ScanEndsIff(m, 1);
    assert 2 in m.l.ready;
  }

  // ----- a request that overtakes another --------------------------------------------------

  /** The first process creates 1 and 2, and is preempted. */
  lemma OvertakeStart(l0: Lists)
    requires l0.ready == [] && |l0.free| >= 2 && l0.free[0] == 1 && l0.free[1] == 2 && |l0.status| == |l0.need| >= 3
    requires l0.status[0] == Off
    ensures var l3 := AfterDispatch(AfterRequeue(AfterSpawn(AfterSpawn(l0)), 0));
      && AfterSpawn(l0).free != [] && AfterSpawn(l0).free[0] == 2 && AfterSpawn(AfterSpawn(l0)).ready == [1, 2]
      && l3.ready == [2, 0] && l3.sem == l0.sem && l3.dev == l0.dev && l3.queue == l0.queue
      && |l3.status| == |l3.need| == |l0.status|
  {
    var l1 := AfterSpawn(l0);
    assert l1.ready == [1] && l1.free == l0.free[1..];
    var l2 := AfterSpawn(l1);
    assert l2.ready == [1, 2];
    var m2 := AfterRequeue(l2, 0);
    assert m2.ready == [1, 2, 0] && m2.ready[1..] == [2, 0];
  }

  /** 1 waits for three of the two units at a, and 2, behind it, for one. */
  lemma OvertakeLists(l3: Lists, a: int)
    requires l3.ready == [2, 0] && |l3.status| == |l3.need| >= 3 && l3.queue == map[] && Val(l3.sem, a) == 2
    ensures var l4 := AfterDispatch(AfterRequest(l3, 1, a, -3));
      var l5 := AfterDispatch(AfterRequest(l4, 2, a, -1));
      && l4.ready == [0] && Val(l4.sem, a) == -1
      && l5.ready == [] && QueueAt(l5.queue, a) == [1, 2] && Val(l5.sem, a) == -2 && l5.dev == l3.dev
      && |l5.status| == |l5.need| == |l3.status| && l5.status[1] == Blocked(a) && l5.need[1] == -3 && l5.need[2] == -1
  {
    var m3 := AfterRequest(l3, 1, a, -3);
    assert m3.queue[a] == [1] && m3.ready[1..] == [0];
    var l4 := AfterDispatch(m3);
    var m4 := AfterRequest(l4, 2, a, -1);
    assert m4.queue[a] == [1] + [2] && m4.ready[1..] == [];
  }

  lemma OvertakeKill(l: Lists, a: int)
    requires QueueAt(l.queue, a) == [1, 2] && Val(l.sem, a) == -2 && !IsDevice(l, a) && |l.status| == |l.need| >= 3
    requires l.status[1] == Blocked(a) && l.need[1] == -3 && l.need[2] == -1
    ensures var m := AfterKill(l, 1); QueueAt(m.queue, a) == [2] && Val(m.sem, a) == 1 && m.need == l.need
  {
    assert [1, 2][0] == 1 && [1, 2][1] == 2;
    assert IndexOf([1, 2], 1) == 0;
    WithoutHead([1, 2]);
    assert [1, 2][1..] == [2];
  }

  lemma OvertakeTree(t0: Tree, pid1: int, pid2: int)
    requires t0.forest == Cons(0, Nil, Nil) && |t0.children| == |t0.pid| >= 3
    ensures var t := WithChild(WithChild(t0, 0, 1, pid1), 0, 2, pid2);
      && t.forest == Cons(0, Cons(1, Nil, Cons(2, Nil, Nil)), Nil)
      && PidAt(t, 0) == t0.pid[0] && PidAt(t, 1) == pid1
  {
    assert Graft(t0.forest, 0, 1) == Cons(0, Cons(1, Nil, Nil), Nil);
    assert AddLast(Cons(1, Nil, Nil), 2) == Cons(1, Nil, Cons(2, Nil, Nil));
  }

  lemma OvertakeTarget(k: KState, pid: int)
    requires k.current == 0 && k.t.forest == Cons(0, Cons(1, Nil, Cons(2, Nil, Nil)), Nil)
    requires pid != 0 && pid != PidAt(k.t, 0) && PidAt(k.t, 1) == pid
    ensures Target(k, pid) == 1 && Below(k.t.forest, 1) == Nil && NoReadyBelow(k, 1)
    ensures KillLists(k.l, k.t, 1, false) == AfterKill(k.l, 1)
  {
    var g := Cons(1, Nil, Cons(2, Nil, Nil));
    assert Below(k.t.forest, 0) == g;
    assert Pre(g)[0] == 1;
    assert Nodes(g) == {1, 2};
    assert Below(k.t.forest, 1) == Below(g, 1) == Nil;
    assert Post(Nil) == [];
  }

  function OvertakeRun(b1: nat, b2: nat, a: int, pid: int): seq<Move> {
    [(Create(b1), At(0))] + ([(Create(b2), At(0))] + ([(Timer, At(0))] +
    ([(SemOp(a, -3), At(0))] + ([(SemOp(a, -1), At(0))] + ([(Terminate(pid), At(0))] + [])))))
  }

  /** A run from main after which process 2 waits for a unit that the next
      request, of the first process, is granted: a waiter was killed that had
      asked for more than there was. */
  lemma {:induction false} OvertakingReached(mc: Machine, base: nat, b1: nat, b2: nat, a: int)
    requires mc.n >= 3 && mc.dev > 0 && !mc.repaired && a != 0 && InitialWord(mc, a) == 2 && !(mc.dev <= a < mc.dev + MAX_DEVICES)
    requires Pid.PidOf(b1, 1) != 0 && Pid.PidOf(b1, 1) != Pid.PidOf(base, 0)
    ensures var es := OvertakeRun(b1, b2, a, Pid.PidOf(b1, 1));
      && History(mc, base, At(0), es)
      && var k := State(mc, base, At(0), es);
         && k.mode == Running && k.current == 0 && QueueAt(k.l.queue, a) == [2] && NeedOf(k.l.need, 2) == -1
         && CanOvertake(k.l, a) && Possible(k, SemOp(a, -1), At(0))
         && Granted(k.l, Request(0, a, -1), a) == [(0, 1)]
         && QueueAt(Step(k, SemOp(a, -1), At(0)).l.queue, a) == [2]
  {
    hide Step, Possible, AfterSpawn, AfterDispatch, AfterRequeue, AfterRequest, AfterKill, WithChild, Booted, PidAt,
      Pid.PidOf, Reached, Runnable, KillLists, Felled, Target, NoReadyBelow;
    BootedThree(mc, base);
    BootedLists(mc, base, At(0));
    var k0 := Booted(mc, base, At(0));
    var pid1, pid2 := Pid.PidOf(b1, 1), Pid.PidOf(b2, 2);
    ClockIsZero(mc, base);
    OvertakeStart(k0.l);
    OvertakeLists(AfterDispatch(AfterRequeue(AfterSpawn(AfterSpawn(k0.l)), 0)), a);
    OvertakeTree(k0.t, pid1, pid2);
    var l1, t1 := AfterSpawn(k0.l), WithChild(k0.t, 0, 1, pid1);
    var l2, t2 := AfterSpawn(l1), WithChild(t1, 0, 2, pid2);
    var l3 := AfterDispatch(AfterRequeue(l2, 0));
    var l4 := AfterDispatch(AfterRequest(l3, 1, a, -3));
    var l5 := AfterDispatch(AfterRequest(l4, 2, a, -1));
    CreateStep(k0, b1, k0.l, k0.t, 0, 1);
    var k1 := Step(k0, Create(b1), At(0));
    CreateStep(k1, b2, l1, t1, 0, 2);
    var k2 := Step(k1, Create(b2), At(0));
    SpawnKeepsWords(k0.l);
    SpawnKeepsWords(l1);
    TimerStep(k2, l2, t2, 0, 3);
    var k3 := Step(k2, Timer, At(0));
    BlockStep(k3, l3, t2, 1, 3, a, -3);
    var k4 := Step(k3, SemOp(a, -3), At(0));
    BlockStep(k4, l4, t2, 2, 3, a, -1);
    var k5 := Step(k4, SemOp(a, -1), At(0));
    OvertakeTarget(k5, pid1);
    OvertakeKill(l5, a);
    KillStep(k5, l5, t2, 0, 3, pid1, 1);
    var k6 := Step(k5, Terminate(pid1), At(0));
    TakeStep(k6, AfterKill(l5, 1), Felled(t2, 1), 0, 3, a, -1);
    Taken(k6.l, a);
    NoMove(k6);
    MoveFirst(k5, Terminate(pid1), []);
    MoveFirst(k4, SemOp(a, -1), [(Terminate(pid1), At(0))] + []);
    MoveFirst(k3, SemOp(a, -3), [(SemOp(a, -1), At(0))] + ([(Terminate(pid1), At(0))] + []));
    MoveFirst(k2, Timer, [(SemOp(a, -3), At(0))] + ([(SemOp(a, -1), At(0))] + ([(Terminate(pid1), At(0))] + [])));
    MoveFirst(k1, Create(b2),
      [(Timer, At(0))] + ([(SemOp(a, -3), At(0))] + ([(SemOp(a, -1), At(0))] + ([(Terminate(pid1), At(0))] + []))));
    MoveFirst(k0, Create(b1),
      [(Create(b2), At(0))] +
      ([(Timer, At(0))] + ([(SemOp(a, -3), At(0))] + ([(SemOp(a, -1), At(0))] + ([(Terminate(pid1), At(0))] + [])))));
  }

  lemma SpawnKeepsWords(l: Lists)
    ensures AfterSpawn(l).sem == l.sem && AfterSpawn(l).dev == l.dev
  {
  }

  lemma Taken(l: Lists, a: int)
    requires QueueAt(l.queue, a) == [2] && Val(l.sem, a) == 1
    ensures CanOvertake(l, a) && Granted(l, Request(0, a, -1), a) == [(0, 1)]
    ensures QueueAt(AfterRequest(l, 0, a, -1).queue, a) == [2]
  {
    SteadyMeaning(l, a);
  }
}
