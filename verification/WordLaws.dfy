/** What every semaphore word holds, from main on. */
module WordLaws {
  import opened Clist
  import opened Lists
  import opened Semaphores
  import opened Progress
  import opened Processes
  import opened Model
  import opened ModelInvariant
  import opened ModelRuns
  import opened SystemLaws
  import opened CallLaws
  import Pid = PidGenerator

  // ----- from the events ----------------------------------------------------------

  /** The weights that the events of a run bring to a. */
  ghost function Net(k: KState, es: seq<Move>, a: int): int
    requires Runnable(k, es)
    decreases |es|
  {
    if es == [] then 0 else Weight(k, es[0].0, a) + Net(Step(k, es[0].0, es[0].1), es[1..], a)
  }

  /** What the dead of a run give back to a. */
  ghost function GivenBack(k: KState, es: seq<Move>, a: int): int
    requires Runnable(k, es)
    decreases |es|
  {
    if es == [] then 0 else Refunded(k, es[0].0, a) + GivenBack(Step(k, es[0].0, es[0].1), es[1..], a)
  }

  lemma OnlyEnded(k: KState, es: seq<Move>)
    requires Ended(k) && Runnable(k, es) && es != []
    ensures Settled(k) && Possible(k, es[0].0, es[0].1) && k.mode != Panicked
  {
  }

  lemma {:induction false} RunWords(k: KState, es: seq<Move>, first: int, a: int)
    requires KInv(k, first) && Ended(k) && Runnable(k, es)
    ensures Reached(k, es).l.dev == k.l.dev
    ensures Val(Reached(k, es).l.sem, a) == Val(k.l.sem, a) + Net(k, es, a) + GivenBack(k, es, a)
    ensures k.l.dev <= a <= k.l.dev + 48 ==> GivenBack(k, es, a) == 0
    decreases |es|
  {
    hide KInv, Step, Weight, KillOk;
    if es != [] {
      var e, c := es[0].0, es[0].1;
      OnlyEnded(k, es);
      StepKeeps(k, e, c, first);
      StepWords(k, e, c, first, a);
      RunWords(Step(k, e, c), es[1..], first, a);
    }
  }

  /** From main on every word holds its first value, the weights of the events
      that named it, and what was given back for the dead; the 49 words of
      device_sem start with 0 and are given nothing back, whoever is killed. */
  lemma {:induction false} WordsAlways(mc: Machine, base: nat, c: Clock, es: seq<Move>, a: int)
    requires History(mc, base, c, es)
    ensures var k := Booted(mc, base, c);
      Val(State(mc, base, c, es).l.sem, a) ==
        if mc.dev <= a <= mc.dev + 48 then Net(k, es, a)
        else Val(mc.words, a) + Net(k, es, a) + GivenBack(k, es, a)
  {
    hide KInv, Booted, Runnable, Reached, Net, GivenBack;
    FirstKeeps(mc, base, c);
    BootedLists(mc, base, c);
    RunWords(Booted(mc, base, c), es, 0, a);
  }

  // ----- from the operations ----------------------------------------------------------

  lemma {:induction false} DeviceBalance(l: Lists, ops: seq<Op>, a: int)
    requires Inv(l) && Legal(l, ops) && l.dev <= a <= l.dev + 48
    ensures Val(Run(l, ops).sem, a) == Val(l.sem, a) + AllSupplied(ops, a) - Units(AllRequested(ops, a))
    decreases |ops|
  {
    hide Inv, Apply;
    if ops != [] {
      InvPreserved(l, ops[0]);
      Shape(l, ops[0]);
      LocalAlways(l, ops[0], a);
      DeviceBalance(Apply(l, ops[0]), ops[1..], a);
      UnitsConcat(Requested(ops[0], a), AllRequested(ops[1..], a));
      RequestedUnits(ops[0], a);
    }
  }

  lemma RequestedUnits(op: Op, a: int)
    ensures Units(Requested(op, a)) == if op.Request? && op.a == a then -op.w else 0
  {
  }

  /** A word of device_sem is always what was supplied less what was requested:
      a killed waiter takes its units with it. */
  lemma {:induction false} DevicesAlways(mc: Machine, base: nat, c: Clock, es: seq<Move>, a: int)
    requires History(mc, base, c, es) && mc.dev <= a <= mc.dev + 48
    ensures var ops := Deeds(mc, base, c, es);
      Val(State(mc, base, c, es).l.sem, a) == AllSupplied(ops, a) - Units(AllRequested(ops, a))
  {
    hide KInv, Inv, Booted, Runnable, Reached, Ops, Run, Legal;
    BootedLists(mc, base, c);
    HistoryKeeps(mc, base, c, es);
    DeviceBalance(Booted(mc, base, c).l, Deeds(mc, base, c, es), a);
  }

  // ----- res_wait ------------------------------------------------------------------------

  /** Who is ready or running waits for nothing. */
  ghost predicate AwakeNeeds(l: Lists) {
    forall p {:trigger l.need[p]} :: 0 <= p < |l.need| && p < |l.status| && (l.status[p] == Ready || l.status[p] == Off) ==> l.need[p] == 0
  }

  lemma {:induction false} OpNeeds(l: Lists, op: Op)
    requires Inv(l) && Enabled(l, op) && AwakeNeeds(l)
    ensures AwakeNeeds(Apply(l, op))
  {
    if op.Release? {
      hide AfterRelease;
      var k := ReleaseWakesLongestPrefix(l, op.a, op.w);
    } else if op.Dispatch? {
      assert l.ready[0] in l.ready;
    }
  }

  lemma {:induction false} RunNeeds(l: Lists, ops: seq<Op>)
    requires Inv(l) && Legal(l, ops) && AwakeNeeds(l)
    ensures AwakeNeeds(Run(l, ops))
    decreases |ops|
  {
    hide Inv, Apply, AwakeNeeds, Enabled;
    if ops != [] {
      InvPreserved(l, ops[0]);
      OpNeeds(l, ops[0]);
      RunNeeds(Apply(l, ops[0]), ops[1..]);
    }
  }

  lemma {:induction false} BootedNeeds(mc: Machine, base: nat, c: Clock)
    requires Sound(mc)
    ensures AwakeNeeds(Booted(mc, base, c).l)
  {
    hide KInv, Settled, Zeroed;
    FirstKeeps(mc, base, c);
    InitialFacts(mc);
  }

  /** From main on res_wait is negative for who waits, and 0 for who is ready
      or running. */
  lemma {:induction false} NeedsAlways(mc: Machine, base: nat, c: Clock, es: seq<Move>, p: int)
    requires History(mc, base, c, es) && 0 <= p < mc.n
    ensures var l := State(mc, base, c, es).l;
      && |l.need| == |l.status| == mc.n
      && (l.status[p].Blocked? ==> l.need[p] < 0)
      && (l.status[p] == Ready || l.status[p] == Off ==> l.need[p] == 0)
  {
    hide KInv, Booted, Runnable, Reached, Ops, Run, Legal, AwakeNeeds;
    HistoryKeeps(mc, base, c, es);
    InvOf(State(mc, base, c, es), 0);
    BootedNeeds(mc, base, c);
    RunNeeds(Booted(mc, base, c).l, Deeds(mc, base, c, es));
    NeedsOf(State(mc, base, c, es).l, p);
  }

  lemma NeedsOf(l: Lists, p: int)
    requires AwakeNeeds(l) && 0 <= p < |l.status| && Inv(l)
    ensures |l.need| == |l.status| && (l.status[p].Blocked? ==> l.need[p] < 0)
    ensures l.status[p] == Ready || l.status[p] == Off ==> l.need[p] == 0
  {
  }
}
