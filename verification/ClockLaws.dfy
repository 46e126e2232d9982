/** The pseudo-clock semaphore over runs of the machine. */
module ClockLaws {
  import opened Clist
  import opened Forests
  import opened Lists
  import opened Semaphores
  import opened Progress
  import opened Processes
  import opened Model
  import opened ModelInvariant
  import opened ModelRuns
  import opened SystemLaws
  import Pid = PidGenerator

  /** The timer interrupt is a tick of the pseudo-clock. */
  predicate IsTick(k: KState, e: Event) {
    e.Timer? && k.pseudoclock
  }

  /** Nobody but WAITCLOCK uses the semaphore a. */
  predicate KeepOff(es: seq<Move>, a: int) {
    forall i {:trigger es[i]} :: 0 <= i < |es| && es[i].0.SemOp? ==> es[i].0.addr != a
  }

  // ----- steps that are not ticks ---------------------------------------------------

  lemma OnlyWaitsConcat(xs: seq<Op>, ys: seq<Op>, a: int)
    requires OnlyWaits(xs, a) && OnlyWaits(ys, a)
    ensures OnlyWaits(xs + ys, a)
  {
  }

  lemma {:induction false} ReapsOnlyWait(ks: seq<int>, a: int)
    ensures OnlyWaits(ReapOps(ks), a) && OnlyWaits(KillEach(ks), a)
  {
    if ks != [] {
      ReapsOnlyWait(ks[1..], a);
      OnlyWaitsConcat([Reap(ks[0])], ReapOps(ks[1..]), a);
      OnlyWaitsConcat([Kill(ks[0])], KillEach(ks[1..]), a);
    }
  }

  lemma {:induction false} KillOnlyWaits(t: Tree, v: int, repaired: bool, a: int)
    ensures OnlyWaits(KillOps(t, v, repaired), a)
  {
    var ks := Post(Below(t.forest, v));
    ReapsOnlyWait(ks, a);
    ReapsOnlyWait(Dead(t, v), a);
    OnlyWaitsConcat(ReapOps(ks), [Kill(v)], a);
  }

  lemma {:induction false} StepOnlyWaits(k: KState, e: Event, c: Clock)
    requires Possible(k, e, c) && !IsTick(k, e) && (e.SemOp? ==> e.addr != ClockSem(k.l))
    ensures OnlyWaits(OpsOf(k, e, c), ClockSem(k.l))
  {
    hide KillOps, Target, Handle, KillOk;
    var a := ClockSem(k.l);
    forall v
      ensures OnlyWaits(KillOps(k.t, v, k.repaired), a)
    {
      KillOnlyWaits(k.t, v, k.repaired, a);
    }
    OnlyWaitsConcat(HandlerOps(k, e), SchedulerOps(Handle(k, e, c)), a);
  }

  // ----- ticks -------------------------------------------------------------------------

  lemma DrainedClock(l: Lists, a: int)
    requires Inv(l) && Val(l.sem, a) <= -|QueueAt(l.queue, a)|
    ensures Val(Drain(l, a).sem, a) == 0 && QueueAt(Drain(l, a).queue, a) == []
  {
    if Val(l.sem, a) < 0 {
      DrainWakesAll(l, a);
    }
  }

  ghost predicate SameWords(l: Lists, m: Lists) {
    m.sem == l.sem && m.queue == l.queue
  }

  lemma PreemptedWords(k: KState, c: Clock)
    ensures SameWords(k.l, Preempted(k, c).l)
  {
  }

  lemma DispatchedWords(k: KState, c: Clock)
    ensures SameWords(k.l, Dispatched(ClockChecked(k, c), c).l)
  {
  }

  lemma ScheduleWords(k: KState, c: Clock)
    ensures SameWords(k.l, Model.Schedule(k, c).l)
  {
    hide Preempted, ClockChecked, Dispatched;
    var k1 := if k.flag == START || k.flag == RESET then k.(pseudoclock := false, time := k.time.(pseudoStart := c.reset)) else k;
    PreemptedWords(k1, c);
    DispatchedWords(Preempted(k1, c), c);
  }

  /** After a tick the semaphore holds 0 and nobody waits. */
  lemma {:induction false} TickClears(k: KState, e: Event, c: Clock, first: int)
    requires KInv(k, first) && Settled(k) && Possible(k, e, c) && IsTick(k, e)
    requires Val(k.l.sem, ClockSem(k.l)) <= -|QueueAt(k.l.queue, ClockSem(k.l))|
    ensures var m := Step(k, e, c); Val(m.l.sem, ClockSem(k.l)) == 0 && QueueAt(m.l.queue, ClockSem(k.l)) == []
  {
    hide KInv, Settled, Drain, Model.Schedule, Panics;
    InvOf(k, first);
    DrainedClock(k.l, ClockSem(k.l));
    HandleKeeps(k, e, c, first);
    ScheduleWords(Handle(k, e, c), c);
  }

  // ----- runs ----------------------------------------------------------------------------

  /** How many waiters of the clock were killed since the last tick; j before. */
  ghost function KilledSinceTick(k: KState, es: seq<Move>, j: nat): nat
    requires Runnable(k, es)
    decreases |es|
  {
    if es == [] then j
    else
      var e, c := es[0].0, es[0].1;
      KilledSinceTick(Step(k, e, c), es[1..],
        if IsTick(k, e) then 0 else j + WaitersKilled(k.l, OpsOf(k, e, c), ClockSem(k.l)))
  }

  /** The clock semaphore holds minus its waiters and j more. */
  ghost predicate Owes(k: KState, j: nat) {
    Val(k.l.sem, ClockSem(k.l)) == -(|QueueAt(k.l.queue, ClockSem(k.l))| + j)
  }

  lemma {:induction false} StepOwes(k: KState, e: Event, c: Clock, first: int, j: nat)
    requires KInv(k, first) && Settled(k) && Possible(k, e, c) && Owes(k, j) && (e.SemOp? ==> e.addr != ClockSem(k.l))
    ensures Step(k, e, c).l.dev == k.l.dev
    ensures Owes(Step(k, e, c), if IsTick(k, e) then 0 else j + WaitersKilled(k.l, OpsOf(k, e, c), ClockSem(k.l)))
  {
    hide KInv, Settled, Step, OpsOf, Run, Legal, WaitersKilled, OnlyWaits;
    var a, ops := ClockSem(k.l), OpsOf(k, e, c);
    InvOf(k, first);
    StepIsRun(k, e, c, first);
    InvOverRuns(k.l, ops);
    if IsTick(k, e) {
      TickClears(k, e, c, first);
    } else {
      StepOnlyWaits(k, e, c);
      ClockDeficit(k.l, ops, a, j);
    }
  }

  lemma {:induction false} RunOwes(k: KState, es: seq<Move>, first: int, j: nat)
    requires KInv(k, first) && Ended(k) && Runnable(k, es) && Owes(k, j) && KeepOff(es, ClockSem(k.l))
    ensures Owes(Reached(k, es), KilledSinceTick(k, es, j)) && Reached(k, es).l.dev == k.l.dev
    decreases |es|
  {
    hide KInv, Step, OpsOf, WaitersKilled, Owes;
    if es != [] {
      var e, c := es[0].0, es[0].1;
      StepKeeps(k, e, c, first);
      StepOwes(k, e, c, first, j);
      RunOwes(Step(k, e, c), es[1..], first,
        if IsTick(k, e) then 0 else j + WaitersKilled(k.l, OpsOf(k, e, c), ClockSem(k.l)));
    }
  }

  /** From main on the clock semaphore holds minus the number of its waiters and
      of its waiters killed since the last tick, if only WAITCLOCK uses it. */
  lemma {:induction false} ClockAlways(mc: Machine, base: nat, c: Clock, es: seq<Move>)
    requires History(mc, base, c, es) && KeepOff(es, mc.dev + MAX_DEVICES - 1)
    ensures var m, a := State(mc, base, c, es), mc.dev + MAX_DEVICES - 1;
      Val(m.l.sem, a) == -(|QueueAt(m.l.queue, a)| + KilledSinceTick(Booted(mc, base, c), es, 0))
  {
    hide KInv, Booted, Runnable, Reached, KilledSinceTick;
    FirstKeeps(mc, base, c);
    BootedLists(mc, base, c);
    RunOwes(Booted(mc, base, c), es, 0, 0);
  }
}
