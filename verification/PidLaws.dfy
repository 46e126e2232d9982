/** When pids tell processes apart, over runs of the machine. */
module PidLaws {
  import opened Clist
  import opened Forests
  import opened Lists
  import opened Progress
  import opened Processes
  import opened Model
  import opened ModelInvariant
  import opened ModelRuns
  import opened SystemLaws
  import opened CallLaws
  import opened WordLaws
  import Pid = PidGenerator

  /** allocPcb leaves the same value x in pid whenever it is called. */
  predicate SameBase(es: seq<Move>, x: nat) {
    forall i {:trigger es[i]} :: 0 <= i < |es| && es[i].0.Create? ==> es[i].0.base == x
  }

  /** No concatenation of x with a counter below n reaches 2^32. */
  ghost predicate Fits(x: nat, n: nat) {
    forall y: nat {:trigger Pid.Concat(x, y)} :: y < n ==> Pid.Concat(x, y) < Pid.WORD
  }

  /** Every process of s has as pid x and its own number, below n. */
  ghost predicate Numbered(t: Tree, s: set<int>, x: nat, n: nat, no: map<int, nat>) {
    && s <= no.Keys
    && (forall p {:trigger no[p]} :: p in s ==> no[p] < n && PidAt(t, p) == Pid.Concat(x, no[p]))
    && forall p, q {:trigger no[p], no[q]} :: p in s && q in s && p != q ==> no[p] != no[q]
  }

  lemma ShortCounter(x: nat, y: nat)
    requires x >= 1 && Pid.Concat(x, y) < Pid.WORD
    ensures y < 1000000000
  {
    if y >= 1000000000 {
      Pid.TenAboveIs(999999999, 8);
      assert Pid.TenAbove(y) > Pid.TenAbove(999999999);
      Pid.TenAboveGap(999999999, y);
      Pid.Larger(x, Pid.TenAbove(y));
    }
  }

  /** Different numbers are different pids. */
  lemma NumberedDiffer(t: Tree, s: set<int>, x: nat, n: nat, no: map<int, nat>, p: int, q: int)
    requires x >= 1 && Numbered(t, s, x, n, no) && p in s && q in s && p != q
    ensures PidAt(t, p) != PidAt(t, q)
  {
    Pid.ConcatInjective(x, no[p], no[q]);
  }

  // ----- steps -----------------------------------------------------------------------

  /** What a step does to the tree and the counter. */
  ghost predicate Regrown(k: KState, e: Event, m: KState) {
    || (m.t == k.t && m.counter == k.counter)
    || (exists v :: m.t == Felled(k.t, v) && m.counter == k.counter)
    || (e.Create? && k.l.free != [] && k.counter < Pid.LARGEST && m.counter == k.counter + 1 &&
        m.t == WithChild(k.t, k.current, k.l.free[0], Pid.PidOf(if e.base < 0 then 0 else e.base, k.counter)))
  }

  lemma HandleRegrown(k: KState, e: Event, c: Clock)
    requires e.Create? ==> k.counter < Pid.LARGEST
    ensures Regrown(k, e, Handle(k, e, c))
  {
    hide Felled, WithChild, KillLists, AfterRequest, AfterRelease, AfterSpawn, Target, Drain;
    var v := Target(k, if e.Terminate? then e.pid else 0);
    TargetEntered(k, e, c);
  }

  lemma StepRegrown(k: KState, e: Event, c: Clock)
    requires e.Create? ==> k.counter < Pid.LARGEST
    ensures Regrown(k, e, Step(k, e, c))
  {
    hide Handle, Model.Schedule, Felled, WithChild;
    HandleRegrown(k, e, c);
    ScheduleFamily(Handle(k, e, c), c);
  }

  // ----- the numbers are kept -------------------------------------------------------------

  /** The live processes are numbered. */
  ghost predicate Told(k: KState, x: nat, no: map<int, nat>) {
    Numbered(k.t, Live(k.l), x, k.counter, no)
  }

  lemma FewerTold(t: Tree, u: Tree, s: set<int>, r: set<int>, x: nat, n: nat, no: map<int, nat>)
    requires Numbered(t, s, x, n, no) && r <= s && u.pid == t.pid
    ensures Numbered(u, r, x, n, no)
  {
  }

  lemma OneMoreTold(t: Tree, s: set<int>, x: nat, n: nat, no: map<int, nat>, p: int, c: int, pid: int)
    requires Numbered(t, s, x, n, no) && c !in s && 0 <= c < |t.pid| && 0 <= p < |t.children| && pid == Pid.Concat(x, n)
    ensures Numbered(WithChild(t, p, c, pid), s + {c}, x, n + 1, no[c := n])
  {
    var u := WithChild(t, p, c, pid);
    forall q | q in s
      ensures PidAt(u, q) == PidAt(t, q)
    {
    }
  }

  /** The pid of the next process. */
  lemma NextPid(x: nat, n: nat)
    requires x >= 1 && n < Pid.LARGEST && Pid.Concat(x, n) < Pid.WORD
    ensures Pid.PidOf(x, n) == Pid.Concat(x, n)
  {
    ShortCounter(x, n);
    Pid.PidIsConcat(x, n);
  }

  lemma LiveIsTree(k: KState, first: int)
    requires KInv(k, first)
    ensures Live(k.l) == Nodes(k.t.forest) && |k.t.children| == |k.t.pid| == |k.l.status|
    ensures forall v :: Nodes(Felled(k.t, v).forest) <= Nodes(k.t.forest)
    ensures k.current != NULL ==> k.current in Live(k.l)
    ensures k.l.free != [] ==> 0 <= k.l.free[0] < |k.l.status| && k.l.free[0] !in Live(k.l)
  {
    forall v
      ensures Nodes(Prune(k.t.forest, v)) <= Nodes(k.t.forest)
    {
      PruneNodes(k.t.children, k.t.forest, v);
    }
    assert k.l.free != [] ==> k.l.free[0] in k.l.free;
  }

  lemma ChildNodes(k: KState, first: int, c: int, pid: int)
    requires KInv(k, first) && k.current != NULL && 0 <= c < |k.l.status| && c !in Live(k.l)
    ensures Nodes(WithChild(k.t, k.current, c, pid).forest) == Nodes(k.t.forest) + {c}
  {
    assert k.current in Live(k.l);
    WithChildKeeps(k.t, |k.l.status|, Live(k.l), first, k.current, c, pid);
  }

  /** A step numbers its new process, if any, with the counter. */
  lemma {:induction false} StepTold(k: KState, e: Event, c: Clock, first: int, x: nat, no: map<int, nat>) returns (no': map<int, nat>)
    requires KInv(k, first) && Settled(k) && Possible(k, e, c) && Told(k, x, no) && x >= 1
    requires (e.Create? ==> e.base == x) && Fits(x, Step(k, e, c).counter)
    ensures k.counter <= Step(k, e, c).counter && Told(Step(k, e, c), x, no')
  {
    hide KInv, Settled, Step, Felled, WithChild, Numbered, Prune;
    var m := Step(k, e, c);
    no' := no;
    StepKeeps(k, e, c, first);
    StepRegrown(k, e, c);
    LiveIsTree(k, first);
    LiveIsTree(m, first);
    if m.t == k.t && m.counter == k.counter {
      FewerTold(k.t, m.t, Live(k.l), Live(m.l), x, k.counter, no);
    } else if v :| m.t == Felled(k.t, v) && m.counter == k.counter {
      FelledPids(k.t, v);
      FewerTold(k.t, m.t, Live(k.l), Live(m.l), x, k.counter, no);
    } else {
      CallerRuns(k, e, c);
      var p := k.l.free[0];
      no' := no[p := k.counter];
      assert Pid.Concat(x, k.counter) < Pid.WORD;
      NextPid(x, k.counter);
      ChildNodes(k, first, p, Pid.Concat(x, k.counter));
      OneMoreTold(k.t, Live(k.l), x, k.counter, no, k.current, p, Pid.Concat(x, k.counter));
    }
  }

  lemma FelledPids(t: Tree, v: int)
    ensures Felled(t, v).pid == t.pid
  {
  }

  lemma CallerRuns(k: KState, e: Event, c: Clock)
    requires Settled(k) && Possible(k, e, c) && e.Create?
    ensures k.current != NULL
  {
  }

  // ----- runs -------------------------------------------------------------------------------

  lemma {:induction false} CounterGrows(k: KState, es: seq<Move>)
    requires Runnable(k, es)
    ensures Reached(k, es).counter >= k.counter
    decreases |es|
  {
    hide Step, Felled, WithChild;
    if es != [] {
      StepRegrown(k, es[0].0, es[0].1);
      CounterGrows(Step(k, es[0].0, es[0].1), es[1..]);
    }
  }

  lemma {:induction false} RunTold(k: KState, es: seq<Move>, first: int, x: nat, no: map<int, nat>) returns (no': map<int, nat>)
    requires KInv(k, first) && Ended(k) && Runnable(k, es) && Told(k, x, no) && x >= 1
    requires SameBase(es, x) && Fits(x, Reached(k, es).counter)
    ensures Told(Reached(k, es), x, no')
    decreases |es|
  {
    hide KInv, Step, Told, Pid.Concat;
    no' := no;
    if es != [] {
      var e, c := es[0].0, es[0].1;
      StepKeeps(k, e, c, first);
      CounterGrows(Step(k, e, c), es[1..]);
      var mid := StepTold(k, e, c, first, x, no);
      no' := RunTold(Step(k, e, c), es[1..], first, x, mid);
    }
  }

  lemma BootedTree(mc: Machine, x: nat, c: Clock)
    requires Sound(mc)
    ensures var k := Booted(mc, x, c);
      k.counter == 1 && k.t.forest == Cons(0, Nil, Nil) && forall p :: PidAt(k.t, p) == if p == 0 then Pid.PidOf(x, 0) else 0
  {
    hide AfterSpawn, AfterDispatch, InitialLists, Model.Schedule;
    InitialFacts(mc);
    ScheduleFamily(FirstProcess(PoweredOn(mc), x), c);
  }

  lemma BootedTold(mc: Machine, x: nat, c: Clock)
    requires Sound(mc) && x >= 1 && Pid.Concat(x, 0) < Pid.WORD
    ensures var k := Booted(mc, x, c); k.counter == 1 && Told(k, x, map[0 := 0])
  {
    hide Settled, KInv, InitialLists, AfterSpawn, AfterDispatch, Booted;
    FirstKeeps(mc, x, c);
    NextPid(x, 0);
    BootedTree(mc, x, c);
    LiveIsTree(Booted(mc, x, c), 0);
    assert Nodes(Nil) == {} && Nodes(Cons(0, Nil, Nil)) == {0};
  }

  /** As long as allocPcb leaves the same value in pid and nothing overflows, no
      two live processes share a pid, so a pid names one process at most. */
  lemma {:induction false} AlwaysToldApart(mc: Machine, x: nat, c: Clock, es: seq<Move>, p: int, q: int)
    requires History(mc, x, c, es) && x >= 1 && SameBase(es, x) && Fits(x, State(mc, x, c, es).counter)
    requires var l := State(mc, x, c, es).l; p in Live(l) && q in Live(l) && p != q
    ensures PidAt(State(mc, x, c, es).t, p) != PidAt(State(mc, x, c, es).t, q)
  {
    hide KInv, Booted, Runnable, Reached, Numbered, Live;
    FirstKeeps(mc, x, c);
    CounterGrows(Booted(mc, x, c), es);
    BootedTree(mc, x, c);
    assert Pid.Concat(x, 0) < Pid.WORD;
    BootedTold(mc, x, c);
    var no := RunTold(Booted(mc, x, c), es, 0, x, map[0 := 0]);
    var m := State(mc, x, c, es);
    NumberedDiffer(m.t, Live(m.l), x, m.counter, no, p, q);
  }

  // ----- every pid ----------------------------------------------------------------------------

  /** The processes created in a run. */
  ghost function Births(k: KState, es: seq<Move>): nat
    requires Runnable(k, es)
    decreases |es|
  {
    if es == [] then 0
    else (if es[0].0.Create? && k.l.free != [] then 1 else 0) + Births(Step(k, es[0].0, es[0].1), es[1..])
  }

  /** The pid that p was given last; n processes were created before, and then
      it was `pid`. */
  ghost function PidGiven(k: KState, es: seq<Move>, p: int, n: nat, pid: int): int
    requires Runnable(k, es)
    decreases |es|
  {
    if es == [] then pid
    else
      var e, c := es[0].0, es[0].1;
      PidGiven(Step(k, e, c), es[1..], p, if e.Create? && k.l.free != [] then n + 1 else n,
        if Born(k, e, p) && n < Pid.LARGEST then Pid.PidOf(if e.base < 0 then 0 else e.base, n) else pid)
  }

  lemma {:induction false} StepPid(k: KState, e: Event, c: Clock, first: int, p: int)
    requires KInv(k, first) && Settled(k) && Possible(k, e, c)
    ensures Step(k, e, c).counter == k.counter + if e.Create? && k.l.free != [] then 1 else 0
    ensures PidAt(Step(k, e, c).t, p) ==
      if Born(k, e, p) then Pid.PidOf(if e.base < 0 then 0 else e.base, k.counter) else PidAt(k.t, p)
    ensures Born(k, e, p) ==> e.Create? && k.counter < Pid.LARGEST
  {
    hide KInv, Settled, KillOk, Step, Felled;
    StepFamily(k, e, c, first);
    FelledPids(k.t, Victim(k, e));
  }

  lemma {:induction false} RunPids(k: KState, es: seq<Move>, first: int, p: int)
    requires KInv(k, first) && Ended(k) && Runnable(k, es)
    ensures Reached(k, es).counter == k.counter + Births(k, es)
    ensures PidAt(Reached(k, es).t, p) == PidGiven(k, es, p, k.counter, PidAt(k.t, p))
    decreases |es|
  {
    hide KInv, Step, KillOk, Born, PidAt, Settled;
    if es != [] {
      var e, c := es[0].0, es[0].1;
      OnlyEnded(k, es);
      StepKeeps(k, e, c, first);
      StepPid(k, e, c, first, p);
      RunPids(Step(k, e, c), es[1..], first, p);
    }
  }

  /** From main on the pid of a process is what pid_generator makes of the value
      that allocPcb left in it and of how many processes were created before it. */
  lemma {:induction false} PidsAlways(mc: Machine, base: nat, c: Clock, es: seq<Move>, p: int)
    requires History(mc, base, c, es)
    ensures var m, k := State(mc, base, c, es), Booted(mc, base, c);
      && PidAt(m.t, p) == PidGiven(k, es, p, 1, if p == 0 then Pid.PidOf(base, 0) else 0)
      && m.counter == 1 + Births(k, es)
  {
    hide KInv, Booted, Runnable, Settled, Reached, PidGiven, Births;
    FirstKeeps(mc, base, c);
    BootedTree(mc, base, c);
    RunPids(Booted(mc, base, c), es, 0, p);
  }
}
