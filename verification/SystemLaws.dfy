/** What holds of the machine that main builds, after any sequence of
    exceptions and interrupts. */
module SystemLaws {
  import opened Clist
  import opened Forests
  import opened Lists
  import opened Semaphores
  import opened Progress
  import opened Processes
  import opened Model
  import opened ModelInvariant
  import opened ModelRuns
  import Pid = PidGenerator

  // ----- from main on -------------------------------------------------------------

  lemma {:induction false} BootedLists(mc: Machine, base: nat, c: Clock)
    requires Sound(mc)
    ensures var l := Booted(mc, base, c).l;
      && Inv(l) && l.dev == mc.dev && |l.status| == mc.n && l.queue == map[]
      && forall a :: Val(l.sem, a) == InitialWord(mc, a)
  {
    hide KInv, Settled, InitialLists, Zeroed, TreeInv;
    FirstKeeps(mc, base, c);
    InvOf(Booted(mc, base, c), 0);
    InitialFacts(mc);
    SpawnFields(InitialLists(mc));
    forall a
      ensures Val(Zeroed(mc.words, mc.dev, MAX_DEVICES), a) == InitialWord(mc, a)
    {
      ZeroedWord(mc.words, mc.dev, MAX_DEVICES, a);
    }
  }

  lemma InitialFacts(mc: Machine)
    requires mc.n >= 1
    ensures var l := InitialLists(mc);
      && l.dev == mc.dev && |l.status| == mc.n && l.queue == map[] && l.sem == Zeroed(mc.words, mc.dev, MAX_DEVICES)
      && l.free != [] && l.free[0] == 0 && l.ready == []
  {
    hide Zeroed;
  }

  /** The first process is created, and dispatched. */
  lemma SpawnFields(l: Lists)
    requires l.free != [] && l.ready == []
    ensures var m := AfterDispatch(AfterSpawn(l));
      m.dev == l.dev && |m.status| == |l.status| && m.queue == l.queue && m.sem == l.sem && AfterSpawn(l).ready == [l.free[0]]
  {
  }

  lemma {:induction false} ZeroedWord(words: map<int, int>, dev: int, n: nat, a: int)
    ensures Val(Zeroed(words, dev, n), a) == if dev <= a < dev + n then 0 else Val(words, a)
  {
    if n > 0 {
      ZeroedWord(words, dev, n - 1, a);
    }
  }

  /** What a semaphore holds when the first process is loaded. */
  function InitialWord(mc: Machine, a: int): int {
    if mc.dev <= a < mc.dev + MAX_DEVICES then 0 else Val(mc.words, a)
  }

  /** A run of the machine. */
  ghost predicate History(mc: Machine, base: nat, c: Clock, es: seq<Move>) {
    Sound(mc) && Runnable(Booted(mc, base, c), es)
  }

  ghost function State(mc: Machine, base: nat, c: Clock, es: seq<Move>): KState
    requires History(mc, base, c, es)
  {
    Reached(Booted(mc, base, c), es)
  }

  /** The elementary operations of a run. */
  ghost function Deeds(mc: Machine, base: nat, c: Clock, es: seq<Move>): seq<Op>
    requires History(mc, base, c, es)
  {
    Ops(Booted(mc, base, c), es)
  }

  lemma {:induction false} HistoryKeeps(mc: Machine, base: nat, c: Clock, es: seq<Move>)
    requires History(mc, base, c, es)
    ensures var m := State(mc, base, c, es);
      && KInv(m, 0) && Ended(m) && |m.l.status| == mc.n && m.l.dev == mc.dev
    ensures var l, ops := Booted(mc, base, c).l, Deeds(mc, base, c, es);
      Inv(l) && Legal(l, ops) && State(mc, base, c, es).l == Run(l, ops)
  {
    FirstKeeps(mc, base, c);
    BootedLists(mc, base, c);
    RunKeeps(Booted(mc, base, c), es, 0);
    InvOverRuns(Booted(mc, base, c).l, Deeds(mc, base, c, es));
  }

  /** The PCBs are always parted among the free list, the ready queue, the
      running process and the semaphore queues; both counters are exact. */
  lemma {:induction false} AlwaysParted(mc: Machine, base: nat, c: Clock, es: seq<Move>, p: int)
    requires History(mc, base, c, es) && 0 <= p < mc.n
    ensures var m := State(mc, base, c, es);
      && |m.l.status| == mc.n
      && (p in m.l.free <==> m.l.status[p] == Free)
      && (p in m.l.ready <==> m.l.status[p] == Ready)
      && (p == m.current <==> m.l.status[p] == Off)
      && (forall a :: p in QueueAt(m.l.queue, a) <==> m.l.status[p] == Blocked(a))
      && Distinct(m.l.free) && Distinct(m.l.ready) && (forall a :: Distinct(QueueAt(m.l.queue, a)))
      && m.l.processCount == mc.n - |m.l.free| && m.l.softBlockCount == |Waiting(m.l)|
  {
    HistoryKeeps(mc, base, c, es);
    var m := State(mc, base, c, es);
    ProcessCountMeaning(m.l);
    Parted(m.l, m.current, p);
  }

  lemma Parted(l: Lists, current: int, p: int)
    requires Placed(l) && CurrentOk(l, current) && 0 <= p < |l.status|
    ensures p in l.free <==> l.status[p] == Free
    ensures p in l.ready <==> l.status[p] == Ready
    ensures p == current <==> l.status[p] == Off
    ensures forall a :: p in QueueAt(l.queue, a) <==> l.status[p] == Blocked(a)
    ensures forall a :: Distinct(QueueAt(l.queue, a))
  {
    forall a
      ensures p in QueueAt(l.queue, a) <==> l.status[p] == Blocked(a)
    {
      if p in QueueAt(l.queue, a) {
        assert p in l.queue[a];
      }
    }
    assert Is(l, p, Off) ==> p == current;
  }

  /** A semaphore of a process never grants more than was supplied: its value
      and the queued demand are together what was supplied, less what was
      granted, and never negative, kills of waiters included. */
  lemma {:induction false} AlwaysSupplied(mc: Machine, base: nat, c: Clock, es: seq<Move>, a: int)
    requires History(mc, base, c, es) && !(mc.dev <= a <= mc.dev + MAX_DEVICES - 1) && Val(mc.words, a) >= 0
    ensures var m, l, ops := State(mc, base, c, es), Booted(mc, base, c).l, Deeds(mc, base, c, es);
      && Val(m.l.sem, a) + Demand(m.l.need, QueueAt(m.l.queue, a)) ==
           Val(mc.words, a) + AllSupplied(ops, a) - Units(AllGranted(l, ops, a))
      && Val(m.l.sem, a) + Demand(m.l.need, QueueAt(m.l.queue, a)) >= 0
  {
    var l, ops := Booted(mc, base, c).l, Deeds(mc, base, c, es);
    BootedLists(mc, base, c);
    HistoryKeeps(mc, base, c, es);
    Conservation(l, ops, a);
    GrantsNeverExceedSupply(l, ops, a);
  }

  lemma NothingQueued(l: Lists, a: int)
    requires l.queue == map[]
    ensures EntriesAt(l, a) == [] && Steady(l, a)
  {
  }

  /** As long as every kill of a waiter of a was harmless, no request overtook
      another: the grants and then the queue are, in order, the requests, less
      the pending ones of those killed; and nobody can overtake now. */
  lemma {:induction false} AlwaysInOrder(mc: Machine, base: nat, c: Clock, es: seq<Move>, a: int)
    requires History(mc, base, c, es) && HarmlessKills(Booted(mc, base, c).l, Deeds(mc, base, c, es), a)
    ensures var m, l, ops := State(mc, base, c, es), Booted(mc, base, c).l, Deeds(mc, base, c, es);
      var got := AllGranted(l, ops, a) + EntriesAt(m.l, a);
      && Sub(got, AllRequested(ops, a))
      && multiset(AllRequested(ops, a)) == multiset(got) + multiset(AllStruck(l, ops, a))
      && !CanOvertake(m.l, a)
  {
    hide KInv, Inv, Legal, Run, Booted, Runnable, Reached, Ops, Sub, AllStruck, AllGranted, AllRequested, HarmlessKills, CanOvertake, Entries;
    var m, l, ops := State(mc, base, c, es), Booted(mc, base, c).l, Deeds(mc, base, c, es);
    BootedLists(mc, base, c);
    HistoryKeeps(mc, base, c, es);
    OrderDespiteKills(l, ops, a);
    SteadyMeaning(m.l, a);
    NothingQueued(l, a);
    assert [] + AllRequested(ops, a) == AllRequested(ops, a);
  }

  /** As long as no waiter of a was killed, the requests are exactly the grants
      and then the queue, and the head of the queue cannot be satisfied. */
  lemma {:induction false} AlwaysTight(mc: Machine, base: nat, c: Clock, es: seq<Move>, a: int)
    requires History(mc, base, c, es) && NoWaiterKilled(Booted(mc, base, c).l, Deeds(mc, base, c, es), a)
    ensures var m, l, ops := State(mc, base, c, es), Booted(mc, base, c).l, Deeds(mc, base, c, es);
      && AllRequested(ops, a) == AllGranted(l, ops, a) + EntriesAt(m.l, a)
      && Tight(m.l, a) && (QueueAt(m.l.queue, a) != [] ==> Val(m.l.sem, a) < 0)
  {
    var m, l, ops := State(mc, base, c, es), Booted(mc, base, c).l, Deeds(mc, base, c, es);
    BootedLists(mc, base, c);
    HistoryKeeps(mc, base, c, es);
    FirstComeFirstServed(l, ops, a);
    assert EntriesAt(l, a) == [];
    if QueueAt(m.l.queue, a) != [] {
      TightIsNegative(m.l, a);
    }
  }

  /** Every live process descends from the first one; once that is dead nobody
      lives and the machine has halted. */
  lemma {:induction false} FirstIsAncestor(mc: Machine, base: nat, c: Clock, es: seq<Move>, p: int)
    requires History(mc, base, c, es) && p in Live(State(mc, base, c, es).l)
    ensures var m := State(mc, base, c, es);
      0 in Live(m.l) && exists k: nat :: Up(m.t.parent, p, k) == 0
  {
    HistoryKeeps(mc, base, c, es);
    var m := State(mc, base, c, es);
    SubtreeIsDescent(m.t, mc.n, Live(m.l), 0, 0, p);
  }

  lemma {:induction false} FirstDeadAllDead(mc: Machine, base: nat, c: Clock, es: seq<Move>)
    requires History(mc, base, c, es) && 0 !in Live(State(mc, base, c, es).l)
    ensures var m := State(mc, base, c, es); Live(m.l) == {} && m.l.processCount == 0 && m.mode == Halted
  {
    HistoryKeeps(mc, base, c, es);
    var m := State(mc, base, c, es);
    assert m.t.forest == Nil;
    assert Live(m.l) == {};
    assert m.current != NULL ==> m.current in Live(m.l);
  }

  // ----- the end of the system ------------------------------------------------------

  lemma RepairedKept(k: KState, e: Event, c: Clock)
    requires e.Create? ==> k.counter < Pid.LARGEST
    ensures Step(k, e, c).repaired == k.repaired
  {
    hide Model.Schedule, Handle;
    HandleRepaired(k, e, c);
    ScheduleRepaired(Handle(k, e, c), c);
  }

  lemma HandleRepaired(k: KState, e: Event, c: Clock)
    requires e.Create? ==> k.counter < Pid.LARGEST
    ensures Handle(k, e, c).repaired == k.repaired
  {
    hide AfterRequest, AfterRelease, KillLists, Drain, AfterSpawn, Target;
  }

  lemma ScheduleRepaired(k: KState, c: Clock)
    ensures Model.Schedule(k, c).repaired == k.repaired
  {
    hide AfterRequeue, AfterDispatch;
  }

  lemma {:induction false} RunRepaired(k: KState, es: seq<Move>)
    requires Runnable(k, es)
    ensures Reached(k, es).repaired == k.repaired
    decreases |es|
  {
    hide Step;
    if es != [] {
      RepairedKept(k, es[0].0, es[0].1);
      RunRepaired(Step(k, es[0].0, es[0].1), es[1..]);
    }
  }

  /** With nobody alive the scheduler halts. */
  lemma {:induction false} NobodyHalts(k: KState, c: Clock, first: int)
    requires KInv(k, first) && Live(k.l) == {} && k.flag != LOADCURRENT
    ensures Model.Schedule(k, c).mode == Halted
  {
    hide TreeInv;
    assert k.current != NULL ==> k.current in Live(k.l);
    if k.l.ready != [] {
      ReadyAlive(k.l);
    }
  }

  lemma ReadyAlive(l: Lists)
    requires Inv(l) && l.ready != []
    ensures Live(l) != {}
  {
    assert l.ready[0] in l.ready;
    assert l.ready[0] in Live(l);
  }

  lemma {:induction false} AllDescend(k: KState)
    requires KInv(k, 0) && 0 in Live(k.l)
    ensures Subtree(k.t.forest, 0) == Live(k.l)
  {
    hide Inv, Linked;
    assert k.t.forest.Cons? && Nodes(Nil) == {};
    assert Below(k.t.forest, 0) == k.t.forest.kids;
  }

  lemma SelfKill(k: KState, d: Clock)
    requires k.current == 0
    ensures Handle(k, Terminate(0), d).l == KillLists(k.l, k.t, 0, k.repaired) && Handle(k, Terminate(0), d).flag == LOADNEXT
    ensures Victim(k, Terminate(0)) == 0 && !Panics(k, Terminate(0))
  {
    hide KillLists, Felled;
  }

  /** The termination of the first process halts the machine: in the repaired
      kernel always, in the kernel as written unless a descendant is ready. */
  lemma {:induction false} FirstEndsAll(mc: Machine, base: nat, c: Clock, es: seq<Move>, d: Clock)
    requires History(mc, base, c, es)
    requires var m := State(mc, base, c, es);
      m.mode == Running && m.current == 0 && Ordered(d, m.time.now) && (mc.repaired || NoReadyBelow(m, 0))
    ensures var m := State(mc, base, c, es); Possible(m, Terminate(0), d) && Step(m, Terminate(0), d).mode == Halted
  {
    hide KInv, Settled, Booted, Runnable, Reached, NoReadyBelow, Handle, KillLists, Model.Schedule, Panics, Live;
    var m := State(mc, base, c, es);
    HistoryKeeps(mc, base, c, es);
    RunRepaired(Booted(mc, base, c), es);
    BootedRepaired(mc, base, c);
    SelfKill(m, d);
    HandleKeeps(m, Terminate(0), d, 0);
    ZeroLives(m);
    AllDescend(m);
    KillKeepsLists(m, 0, 0);
    ReadyInvOf(Handle(m, Terminate(0), d), 0);
    NobodyHalts(Handle(m, Terminate(0), d), d, 0);
  }

  lemma BootedRepaired(mc: Machine, base: nat, c: Clock)
    requires Sound(mc)
    ensures Booted(mc, base, c).repaired == mc.repaired
  {
  }

  lemma ZeroLives(k: KState)
    requires KInv(k, 0) && k.current == 0
    ensures 0 in Live(k.l)
  {
  }

  lemma ReadyInvOf(k: KState, first: int)
    requires Ready4Scheduler(k, first)
    ensures KInv(k, first)
  {
  }

  // ----- the state in which a kill does damage ------------------------------------------

  lemma FirstSpawned(mc: Machine)
    requires mc.n >= 2
    ensures var l := AfterDispatch(AfterSpawn(InitialLists(mc)));
      l.ready == [] && l.free != [] && l.free[0] == 1 && AfterSpawn(InitialLists(mc)).ready == [0]
  {
    hide Zeroed;
    var l := InitialLists(mc);
    assert l.free[1..][0] == l.free[1] == 1;
    assert AfterSpawn(l).ready == [0];
  }

  lemma {:induction false} BootedFamily(mc: Machine, base: nat, c: Clock)
    requires mc.n >= 2 && mc.dev > 0
    ensures var k := Booted(mc, base, c);
      && k.current == 0 && k.mode == Running && k.l.ready == [] && k.l.free != [] && k.l.free[0] == 1 && k.counter == 1
      && k.t.forest == Cons(0, Nil, Nil) && |k.t.children| == mc.n
  {
    hide KInv, Settled, InitialLists, AfterSpawn, AfterDispatch, Zeroed;
    FirstKeeps(mc, base, c);
    InitialFacts(mc);
    FirstSpawned(mc);
  }

  /** A process that has created a child which has not run yet may not end: one
      system call after main the descendants of the running process include a
      ready one. */
  lemma {:induction false} ReadyChildSoon(mc: Machine, base: nat, c: Clock, base1: nat, d: Clock)
    requires mc.n >= 2 && mc.dev > 0
    ensures var m := Step(Booted(mc, base, c), Create(base1), d);
      m.mode == Running && m.current == 0 && 1 in m.l.ready && 1 in Nodes(Below(m.t.forest, 0)) && !NoReadyBelow(m, m.current)
  {
    BootedFamily(mc, base, c);
    var k := Booted(mc, base, c);
    assert Graft(k.t.forest, 0, 1) == Cons(0, AddLast(Nil, 1), Nil);
    var m := Step(k, Create(base1), d);
    assert m.l.ready == [1];
    assert 1 in Nodes(Below(m.t.forest, 0));
  }
}
