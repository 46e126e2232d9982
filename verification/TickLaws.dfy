/** When the pseudo-clock ticks. */
module TickLaws {
  import opened Clist
  import opened Lists
  import opened Progress
  import opened Model
  import opened ModelInvariant
  import opened ModelRuns
  import opened SystemLaws
  import opened ClockLaws
  import opened CallLaws
  import opened WordLaws
  import Pid = PidGenerator

  // ----- one step -----------------------------------------------------------------

  lemma SchedulerMarks(k: KState, c: Clock)
    ensures var m := Model.Schedule(k, c);
      var anew := k.flag == START || k.flag == RESET;
      var from := if anew then c.reset else k.time.pseudoStart;
      m.time.now == c.start &&
      if k.flag == LOADCURRENT then
        m.pseudoclock == k.pseudoclock && m.time.pseudoStart == k.time.pseudoStart
      else
        && (m.pseudoclock <==> c.check - from > 95000 || (k.pseudoclock && !anew))
        && m.time.pseudoStart == if c.check - from > 95000 then c.tick else from
  {
    hide AfterRequeue, AfterDispatch;
  }

  /** A step that loads marks the next timer interrupt as a tick iff more than
      95 ms passed since pseudo_start, which a tick sets anew; a mark stays
      until that interrupt, which takes it away. */
  lemma {:induction false} MarkIff(k: KState, e: Event, c: Clock, first: int)
    requires KInv(k, first) && Settled(k) && Possible(k, e, c) && !Panics(k, e)
    ensures var m := Step(k, e, c);
      var from := if IsTick(k, e) then c.reset else k.time.pseudoStart;
      if !Loads(k, e) then
        m.pseudoclock == k.pseudoclock && m.time.pseudoStart == k.time.pseudoStart
      else
        && (m.pseudoclock <==> c.check - from > 95000 || (k.pseudoclock && !IsTick(k, e)))
        && m.time.pseudoStart == if c.check - from > 95000 then c.tick else from
    ensures Step(k, e, c).time.now == c.start
  {
    hide KInv, Settled, KillOk, Handle, Model.Schedule, EndsCaller, Blocks;
    HandleKeeps(k, e, c, first);
    HandlerLeaves(k, e, c, first);
    SchedulerMarks(Handle(k, e, c), c);
  }

  lemma {:induction false} BootedMark(mc: Machine, base: nat, c: Clock)
    requires Sound(mc)
    ensures var k := Booted(mc, base, c);
      && (k.pseudoclock <==> c.check - c.reset > 95000) && k.time.now == c.start
      && k.time.pseudoStart == if c.check - c.reset > 95000 then c.tick else c.reset
  {
    hide Model.Schedule, KInv, Settled, InitialLists;
    FirstKeeps(mc, base, c);
    SchedulerMarks(FirstProcess(PoweredOn(mc), base), c);
  }

  // ----- runs -----------------------------------------------------------------------

  /** The state before the i-th event of a run. */
  ghost function At(k: KState, es: seq<Move>, i: nat): KState
    requires Runnable(k, es) && i <= |es|
    decreases i
  {
    if i == 0 then k else At(Step(k, es[0].0, es[0].1), es[1..], i - 1)
  }

  /** The i-th event is a tick. */
  ghost predicate Tick(k: KState, es: seq<Move>, i: nat)
    requires Runnable(k, es)
  {
    i < |es| && IsTick(At(k, es, i), es[i].0)
  }

  /** The n-th event loads a process more than 95 ms after r. */
  ghost predicate LateLoad(k: KState, es: seq<Move>, n: nat, r: int)
    requires Runnable(k, es)
  {
    n < |es| && Loads(At(k, es, n), es[n].0) && es[n].1.check - r > 95000
  }

  lemma TickNext(k: KState, es: seq<Move>, i: nat, r: int)
    requires Runnable(k, es) && es != [] && i > 0
    ensures var m := Step(k, es[0].0, es[0].1);
      && (Tick(k, es, i) <==> Tick(m, es[1..], i - 1))
      && (LateLoad(k, es, i, r) <==> LateLoad(m, es[1..], i - 1, r))
  {
  }

  /** After a reset at r: while there is no tick, the flag is set iff some load
      since came late. */
  lemma {:induction false} FlagIff(k: KState, es: seq<Move>, first: int, r: int, d: bool, j: nat)
    requires KInv(k, first) && Ended(k) && Runnable(k, es) && j < |es|
    requires (k.pseudoclock <==> d) && (!d ==> k.time.pseudoStart == r)
    requires forall i: nat :: i < j ==> !Tick(k, es, i)
    ensures At(k, es, j).pseudoclock <==> d || exists n: nat :: n < j && LateLoad(k, es, n, r)
    decreases j
  {
    hide KInv, Step, Settled, Loads, KillOk, IsTick, Panics;
    if j > 0 {
      var e, c := es[0].0, es[0].1;
      var m, d' := Step(k, e, c), d || LateLoad(k, es, 0, r);
      OnlyEnded(k, es);
      StepKeeps(k, e, c, first);
      NoPanicYet(m, es[1..]);
      assert !Tick(k, es, 0);
      MarkIff(k, e, c, first);
      forall i: nat | i < j - 1
        ensures !Tick(m, es[1..], i)
      {
        TickNext(k, es, i + 1, r);
      }
      FlagIff(m, es[1..], first, r, d', j - 1);
      ShiftLate(k, es, r, 0, j);
    }
  }

  lemma NoPanicYet(k: KState, es: seq<Move>)
    requires Runnable(k, es) && es != []
    ensures k.mode != Panicked
  {
  }

  lemma ShiftLate(k: KState, es: seq<Move>, r: int, i: nat, j: nat)
    requires Runnable(k, es) && es != [] && j > 0
    ensures var m := Step(k, es[0].0, es[0].1);
      && ((exists n: nat :: n < j && LateLoad(k, es, n, r)) <==>
           LateLoad(k, es, 0, r) || exists n: nat :: n < j - 1 && LateLoad(m, es[1..], n, r))
      && (i > 0 ==> ((exists n: nat :: i <= n < j && LateLoad(k, es, n, r)) <==>
           exists n: nat :: i - 1 <= n < j - 1 && LateLoad(m, es[1..], n, r)))
  {
    hide Step;
    var m := Step(k, es[0].0, es[0].1);
    forall n: nat | n > 0
      ensures LateLoad(k, es, n, r) <==> LateLoad(m, es[1..], n - 1, r)
    {
      TickNext(k, es, n, r);
    }
    forall n: nat
      ensures LateLoad(m, es[1..], n, r) ==> LateLoad(k, es, n + 1, r)
    {
      TickNext(k, es, n + 1, r);
    }
  }

  /** Between the tick i and the timer interrupt j there is no other tick: j is
      one iff a load since, i's own included, came more than 95 ms after i
      restarted the clock. */
  lemma {:induction false} RunTickIff(k: KState, es: seq<Move>, first: int, i: nat, j: nat)
    requires KInv(k, first) && Ended(k) && Runnable(k, es) && i < j < |es| && Tick(k, es, i)
    requires forall n: nat :: i < n < j ==> !Tick(k, es, n)
    ensures At(k, es, j).pseudoclock <==> exists n: nat :: i <= n < j && LateLoad(k, es, n, es[i].1.reset)
    decreases i
  {
    hide KInv, Step, Settled, Loads, KillOk, IsTick, Panics, Tick;
    var e, c, r := es[0].0, es[0].1, es[i].1.reset;
    var m := Step(k, e, c);
    OnlyEnded(k, es);
    StepKeeps(k, e, c, first);
    NoPanicYet(m, es[1..]);
    forall n: nat | i - 1 < n < j - 1
      ensures !Tick(m, es[1..], n)
    {
      assert !Tick(k, es, n + 1);
      TickNext(k, es, n + 1, r);
    }
    ShiftLate(k, es, r, i, j);
    if i == 0 {
      MarkIff(k, e, c, first);
      TickLoads(k, es, 0);
      FlagIff(m, es[1..], first, r, LateLoad(k, es, 0, r), j - 1);
    } else {
      TickNext(k, es, i, r);
      RunTickIff(m, es[1..], first, i - 1, j - 1);
    }
  }

  lemma TickLoads(k: KState, es: seq<Move>, i: nat)
    requires Runnable(k, es) && Tick(k, es, i)
    ensures IsTick(At(k, es, i), es[i].0) && Loads(At(k, es, i), es[i].0) && es[i].0.Timer?
  {
  }

  /** From main on: a timer interrupt is a tick iff, since the last tick or
      since main, some process was loaded more than 95 ms after the reading that
      restarted the clock then. */
  lemma {:induction false} TickIff(mc: Machine, base: nat, c: Clock, es: seq<Move>, j: nat)
    requires History(mc, base, c, es) && j < |es| && es[j].0.Timer?
    ensures var k := Booted(mc, base, c);
      (forall n: nat :: n < j ==> !Tick(k, es, n)) ==>
        (Tick(k, es, j) <==> c.check - c.reset > 95000 || exists n: nat :: n < j && LateLoad(k, es, n, c.reset))
    ensures var k := Booted(mc, base, c);
      forall i: nat :: i < j && Tick(k, es, i) && (forall n: nat :: i < n < j ==> !Tick(k, es, n)) ==>
        (Tick(k, es, j) <==> exists n: nat :: i <= n < j && LateLoad(k, es, n, es[i].1.reset))
  {
    hide KInv, Booted, Runnable, Settled, LateLoad, At;
    var k := Booted(mc, base, c);
    FirstKeeps(mc, base, c);
    BootedMark(mc, base, c);
    if forall n: nat :: n < j ==> !Tick(k, es, n) {
      FlagIff(k, es, 0, c.reset, c.check - c.reset > 95000, j);
    }
    forall i: nat | i < j && Tick(k, es, i) && forall n: nat :: i < n < j ==> !Tick(k, es, n)
      ensures Tick(k, es, j) <==> exists n: nat :: i <= n < j && LateLoad(k, es, n, es[i].1.reset)
    {
      RunTickIff(k, es, 0, i, j);
    }
  }

  // ----- how far apart ticks are ---------------------------------------------------------

  /** The clock was restarted at r or later, and the flag is not set before 95 ms
      have passed. */
  ghost predicate Fresh(k: KState, r: int) {
    k.time.pseudoStart >= r && k.time.now >= r && (k.pseudoclock ==> k.time.now - r > 95000)
  }

  lemma {:induction false} StepFresh(k: KState, e: Event, c: Clock, first: int, r: int)
    requires KInv(k, first) && Settled(k) && Possible(k, e, c) && !Panics(k, e)
    requires Fresh(k, r) || (IsTick(k, e) && r == c.reset)
    ensures Fresh(Step(k, e, c), r)
  {
    hide KInv, Settled, Step, KillOk, Panics, Loads;
    MarkIff(k, e, c, first);
    if IsTick(k, e) {
      TimerLoads(k, e);
    }
  }

  lemma {:induction false} FreshTick(k: KState, es: seq<Move>, first: int, r: int, j: nat)
    requires KInv(k, first) && Ended(k) && Runnable(k, es) && Fresh(k, r) && Tick(k, es, j)
    ensures es[j].1.entry - r > 95000
    decreases j
  {
    hide KInv, Step, Settled, KillOk, Panics;
    OnlyEnded(k, es);
    if j > 0 {
      var e, c := es[0].0, es[0].1;
      StepKeeps(k, e, c, first);
      NoPanicYet(Step(k, e, c), es[1..]);
      StepFresh(k, e, c, first, r);
      FreshTick(Step(k, e, c), es[1..], first, r, j - 1);
    }
  }

  lemma {:induction false} RunTicksApart(k: KState, es: seq<Move>, first: int, i: nat, j: nat)
    requires KInv(k, first) && Ended(k) && Runnable(k, es) && i < j && Tick(k, es, i) && Tick(k, es, j)
    ensures es[j].1.entry - es[i].1.reset > 95000
    decreases i
  {
    hide KInv, Step, Settled, KillOk, Panics, Fresh, IsTick;
    var e, c := es[0].0, es[0].1;
    OnlyEnded(k, es);
    StepKeeps(k, e, c, first);
    NoPanicYet(Step(k, e, c), es[1..]);
    TickNext(k, es, j, 0);
    if i == 0 {
      StepFresh(k, e, c, first, c.reset);
      FreshTick(Step(k, e, c), es[1..], first, c.reset, j - 1);
    } else {
      TickNext(k, es, i, 0);
      RunTicksApart(Step(k, e, c), es[1..], first, i - 1, j - 1);
    }
  }

  /** From main on any two ticks are more than 95 ms apart: from the reading
      with which the first restarts the clock to the entry of the second. */
  lemma {:induction false} TicksApart(mc: Machine, base: nat, c: Clock, es: seq<Move>, i: nat, j: nat)
    requires History(mc, base, c, es) && i < j && Tick(Booted(mc, base, c), es, i) && Tick(Booted(mc, base, c), es, j)
    ensures es[j].1.entry - es[i].1.reset > 95000
  {
    hide KInv, Booted, Runnable, Settled;
    FirstKeeps(mc, base, c);
    RunTicksApart(Booted(mc, base, c), es, 0, i, j);
  }
}
