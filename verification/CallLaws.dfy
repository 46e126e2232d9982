/** What one step does, told from the event and the state before it: who runs
    next, and what becomes of every queue and every semaphore word. */
module CallLaws {
  import opened Clist
  import opened Forests
  import opened Lists
  import opened Semaphores
  import opened Progress
  import opened Processes
  import opened Model
  import opened ModelInvariant
  import opened ModelRuns
  import opened ClockLaws
  import Pid = PidGenerator

  // ----- what an event asks for --------------------------------------------------

  /** The address of the semaphore on which e signals or waits, and the weight;
      weight 0 if it does neither.  The clock semaphore is the 49th of device_sem. */
  ghost function Weight(k: KState, e: Event, a: int): int {
    match e
    case SemOp(b, w) => if b != 0 && a == b then w else 0
    case WaitClock => if a == k.l.dev + 48 then -1 else 0
    case Timer => if a == k.l.dev + 48 && k.pseudoclock && Val(k.l.sem, a) < 0 then -Val(k.l.sem, a) else 0
    case Device(i) => if a == k.l.dev + i && Val(k.l.sem, a) < 1 then 1 else 0
    case _ => 0
  }

  /** e blocks its caller, at a. */
  ghost predicate BlocksAt(k: KState, e: Event, a: int) {
    Weight(k, e, a) < 0 && Val(k.l.sem, a) + Weight(k, e, a) < 0
  }

  ghost predicate Blocks(k: KState, e: Event) {
    match e
    case SemOp(a, w) => a != 0 && w < 0 && Val(k.l.sem, a) + w < 0
    case WaitClock => Val(k.l.sem, k.l.dev + 48) < 1
    case _ => false
  }

  /** e ends its caller: a trap, TERMINATEPROCESS of 0 or the caller's own pid,
      or SEMOP with weight 0. */
  predicate EndsCaller(k: KState, e: Event) {
    match e
    case Trap => true
    case Terminate(pid) => pid == 0 || pid == PidAt(k.t, k.current)
    case SemOp(a, w) => a != 0 && w == 0
    case _ => false
  }

  predicate IsInterrupt(e: Event) {
    e.Timer? || e.Device?
  }

  /** e makes the scheduler choose a process. */
  ghost predicate Loads(k: KState, e: Event) {
    IsInterrupt(e) || EndsCaller(k, e) || Blocks(k, e)
  }

  /** Who dies. */
  ghost function Doom(k: KState, e: Event): set<int> {
    if EndsCaller(k, e) then Subtree(k.t.forest, k.current)
    else if e.Terminate? && Target(k, e.pid) != NULL then Subtree(k.t.forest, Target(k, e.pid))
    else {}
  }

  /** How many of those who wait at a wake: as many as fit. */
  ghost function Waking(k: KState, e: Event, a: int): (n: nat)
    ensures n <= |QueueAt(k.l.queue, a)|
  {
    var q := QueueAt(k.l.queue, a);
    if Weight(k, e, a) <= 0 then 0
    else if e.Timer? then |q|
    else WakeCount(k.l.need, q, Avail(k.l, a) + Weight(k, e, a))
  }

  /** Where e signals. */
  ghost function Signalled(k: KState, e: Event): int {
    match e
    case SemOp(a, _) => a
    case Timer => k.l.dev + 48
    case Device(i) => k.l.dev + i
    case _ => 0
  }

  /** Who becomes ready, in order: a child, or those who wake. */
  ghost function Readied(k: KState, e: Event): seq<int> {
    if e.Create? then k.l.free[..if k.l.free == [] then 0 else 1]
    else QueueAt(k.l.queue, Signalled(k, e))[..Waking(k, e, Signalled(k, e))]
  }

  /** What is given back to a for the doomed that wait there; nothing to the 49
      words of device_sem. */
  ghost function Refunded(k: KState, e: Event, a: int): int {
    var q := QueueAt(k.l.queue, a);
    if k.l.dev <= a <= k.l.dev + 48 then 0 else Demand(k.l.need, q) - Demand(k.l.need, Minus(q, Doom(k, e)))
  }

  // ----- the handler --------------------------------------------------------------

  /** The ready queue, the queue of a and its word, after the handler. */
  ghost predicate Handled(k: KState, e: Event, a: int, m: Lists) {
    && m.ready == Minus(k.l.ready, Doom(k, e)) + Readied(k, e)
    && QueueAt(m.queue, a) ==
         Minus(QueueAt(k.l.queue, a)[Waking(k, e, a)..], Doom(k, e)) + (if BlocksAt(k, e, a) then [k.current] else [])
    && Val(m.sem, a) == Val(k.l.sem, a) + Weight(k, e, a) + Refunded(k, e, a)
    && (BlocksAt(k, e, a) ==> NeedOf(m.need, k.current) == Weight(k, e, a))
    && m.dev == k.l.dev
  }

  lemma NobodyDies(k: KState, e: Event, a: int)
    requires Doom(k, e) == {}
    ensures Minus(k.l.ready, Doom(k, e)) == k.l.ready
    ensures var r := QueueAt(k.l.queue, a)[Waking(k, e, a)..]; Minus(r, Doom(k, e)) == r
    ensures Refunded(k, e, a) == 0
  {
    MinusEmpty(k.l.ready);
    MinusEmpty(QueueAt(k.l.queue, a));
    MinusEmpty(QueueAt(k.l.queue, a)[Waking(k, e, a)..]);
  }

  /** Nothing happens to the lists. */
  lemma NothingHandled(k: KState, e: Event, a: int)
    requires Doom(k, e) == {} && Weight(k, e, a) == 0 && Readied(k, e) == []
    ensures Handled(k, e, a, k.l)
  {
    hide Doom, Weight, Readied, Minus;
    NobodyDies(k, e, a);
    assert QueueAt(k.l.queue, a)[0..] == QueueAt(k.l.queue, a);
  }

  lemma CreateHandled(k: KState, e: Event, a: int)
    requires e.Create? && k.l.free != [] && Inv(k.l)
    ensures Handled(k, e, a, AfterSpawn(k.l))
  {
    hide Minus, Inv;
    NobodyDies(k, e, a);
    assert QueueAt(k.l.queue, a)[0..] == QueueAt(k.l.queue, a);
    assert k.l.free[..1] == [k.l.free[0]];
  }

  lemma RequestHandled(k: KState, e: Event, a: int, b: int, w: int)
    requires (e == SemOp(b, w) && b != 0 && w < 0) || (e == Event.WaitClock && b == k.l.dev + 48 && w == -1)
    requires |k.l.need| == |k.l.status| && 0 <= k.current < |k.l.status|
    ensures Handled(k, e, a, AfterRequest(k.l, k.current, b, w))
  {
    hide Minus, AfterRequest, Refunded;
    NobodyDies(k, e, a);
    RequestWords(k.l, k.current, b, w, a);
    assert QueueAt(k.l.queue, a)[0..] == QueueAt(k.l.queue, a);
  }

  lemma RequestWords(l: Lists, p: int, b: int, w: int, a: int)
    requires |l.need| == |l.status| && 0 <= p < |l.status|
    ensures var m, waits := AfterRequest(l, p, b, w), a == b && Val(l.sem, a) + w < 0;
      && m.ready == l.ready && m.dev == l.dev
      && QueueAt(m.queue, a) == QueueAt(l.queue, a) + (if waits then [p] else [])
      && Val(m.sem, a) == Val(l.sem, a) + (if a == b then w else 0)
      && (waits ==> NeedOf(m.need, p) == w)
  {
  }

  lemma WokenHandled(k: KState, e: Event, a: int, b: int, w: int, m: Lists)
    requires Inv(k.l) && Doom(k, e) == {} && !e.Create? && b == Signalled(k, e) && w == Weight(k, e, b) > 0
    requires forall x :: x != b ==> Weight(k, e, x) == 0
    requires m == Woken(k.l, b, Waking(k, e, b)).(sem := k.l.sem[b := Val(k.l.sem, b) + w])
    requires Waking(k, e, b) <= |QueueAt(k.l.queue, b)|
    ensures Handled(k, e, a, m)
  {
    hide Minus, Inv, Doom, Weight, Waking, Signalled, Woken, BlocksAt, Refunded;
    NobodyDies(k, e, a);
    WakingNone(k, e, a);
    WokenWords(k.l, b, Waking(k, e, b), a);
    var r := QueueAt(k.l.queue, a)[Waking(k, e, a)..];
    assert r + [] == r;
    SignalledReady(k, e);
  }

  lemma SignalledReady(k: KState, e: Event)
    requires !e.Create?
    ensures Readied(k, e) == QueueAt(k.l.queue, Signalled(k, e))[..Waking(k, e, Signalled(k, e))]
  {
  }

  lemma WokenWords(l: Lists, b: int, n: nat, a: int)
    requires n <= |QueueAt(l.queue, b)|
    ensures var m, q := Woken(l, b, n), QueueAt(l.queue, a);
      && m.ready == l.ready + QueueAt(l.queue, b)[..n] && m.dev == l.dev
      && QueueAt(m.queue, a) == if a == b then q[n..] else q[0..]
  {
    var q := QueueAt(l.queue, a);
    assert q[0..] == q;
  }

  lemma WakingNone(k: KState, e: Event, a: int)
    ensures Weight(k, e, a) == 0 ==> Waking(k, e, a) == 0
    ensures Weight(k, e, a) >= 0 ==> !BlocksAt(k, e, a)
  {
  }

  lemma ReleaseHandled(k: KState, e: Event, a: int, b: int, w: int)
    requires Inv(k.l) && w > 0 && k.l.dev > 0
    requires (e == SemOp(b, w) && b != 0) || (e.Device? && b == k.l.dev + e.i && Val(k.l.sem, b) < 1 && w == 1)
    ensures Handled(k, e, a, AfterRelease(k.l, b, w))
  {
    hide Inv, AfterRelease, Woken, Handled, WakeCount, Demand;
    var n := ReleaseWakesLongestPrefix(k.l, b, w);
    WokenHandled(k, e, a, b, w, AfterRelease(k.l, b, w));
  }

  lemma TickHandled(k: KState, e: Event, a: int)
    requires Inv(k.l) && e.Timer? && k.pseudoclock && Val(k.l.sem, k.l.dev + 48) < 0
    ensures Handled(k, e, a, Drain(k.l, k.l.dev + 48))
  {
    hide Inv, Drain, Woken, Handled;
    DrainWakesAll(k.l, k.l.dev + 48);
    WokenHandled(k, e, a, k.l.dev + 48, -Val(k.l.sem, k.l.dev + 48), Drain(k.l, k.l.dev + 48));
  }

  // ----- kills -----------------------------------------------------------------------

  lemma {:induction false} RefundIsDemand(l: Lists, ks: seq<int>, a: int, q: seq<int>)
    requires Distinct(ks) && Distinct(q) && forall p :: p in ks ==> (p in q <==> Is(l, p, Blocked(a)))
    ensures Refund(l, ks, a) == Demand(l.need, q) - Demand(l.need, Minus(q, Members(ks)))
  {
    hide Distinct, Demand, Minus, NeedOf;
    if ks == [] {
      assert Members(ks) == {};
      MinusEmpty(q);
    } else {
      var p, r := ks[0], ks[1..];
      DistinctTail(ks);
      WithoutDistinct(q, p);
      assert Members(ks) == {p} + Members(r);
      MinusWithout(q, p, Members(r));
      RefundIsDemand(l, r, a, Without(q, p));
      if p in q {
        DemandWithout(l.need, q, p);
      }
    }
  }

  lemma {:induction false} KillHandled(k: KState, e: Event, a: int, v: int, first: int)
    requires KInv(k, first) && v in Live(k.l) && KillOk(k, v) && Doom(k, e) == Subtree(k.t.forest, v)
    requires Weight(k, e, a) == 0 && Readied(k, e) == []
    ensures Handled(k, e, a, KillLists(k.l, k.t, v, k.repaired))
  {
    hide KInv, KillOk, KillLists, Doom, Weight, Readied, Minus, Inv, Subtree, Demand, BlocksAt, Waking, NoReadyBelow, Live;
    var q := QueueAt(k.l.queue, a);
    KillWords(k, v, first, a);
    WakingNone(k, e, a);
    assert q[0..] == q;
    assert Minus(k.l.ready, Doom(k, e)) + [] == Minus(k.l.ready, Doom(k, e));
    assert Minus(q, Doom(k, e)) + [] == Minus(q, Doom(k, e));
  }

  lemma {:induction false} KillWords(k: KState, v: int, first: int, a: int)
    requires KInv(k, first) && v in Live(k.l) && KillOk(k, v)
    ensures var m, q, s := KillLists(k.l, k.t, v, k.repaired), QueueAt(k.l.queue, a), Subtree(k.t.forest, v);
      && m.dev == k.l.dev && m.ready == Minus(k.l.ready, s) && QueueAt(m.queue, a) == Minus(q, s)
      && Val(m.sem, a) == Val(k.l.sem, a) +
           if k.l.dev <= a <= k.l.dev + 48 then 0 else Demand(k.l.need, q) - Demand(k.l.need, Minus(q, s))
  {
    hide KInv, KillOk, KillLists, Kills, Refund, Minus, Inv, Subtree, Dead, Demand, Condemned, NoReadyBelow, Post, Below, Nodes, Distinct;
    var ks := Dead(k.t, v);
    InvOf(k, first);
    KillKeepsLists(k, v, first);
    DeadAreSubtree(k, v, first);
    KillListsAre(k, v, first);
    KillsExact(k.l, ks, a);
    QueueMembers(k.l, a);
    CondemnedOnce(k.l, ks);
    RefundIsDemand(k.l, ks, a, QueueAt(k.l.queue, a));
  }

  lemma CondemnedOnce(l: Lists, ks: seq<int>)
    requires Condemned(l, ks)
    ensures Distinct(ks)
  {
  }

  lemma QueueMembers(l: Lists, a: int)
    requires Inv(l)
    ensures Distinct(QueueAt(l.queue, a)) && forall p :: p in QueueAt(l.queue, a) <==> Is(l, p, Blocked(a))
  {
    forall p
      ensures p in QueueAt(l.queue, a) <==> Is(l, p, Blocked(a))
    {
      if p in QueueAt(l.queue, a) {
        assert p in l.queue[a];
      }
    }
  }

  // ----- every handler ------------------------------------------------------------------

  lemma CallerIs(k: KState, e: Event, c: Clock, first: int)
    requires KInv(k, first) && Settled(k) && Possible(k, e, c) && !IsInterrupt(e)
    ensures k.mode == Running && k.current != NULL && k.current in Live(k.l) && k.l.dev > 0 && Inv(k.l)
    ensures 0 <= k.current < |k.l.status| == |k.l.need|
  {
    assert Is(k.l, k.current, Off);
  }

  /** The one who dies with its descendants, if anybody. */
  lemma {:induction false} DoomIs(k: KState, e: Event, c: Clock, first: int)
    requires KInv(k, first) && Settled(k) && Possible(k, e, c)
    ensures Victim(k, e) == NULL <==> !EndsCaller(k, e) && !(e.Terminate? && Target(k, e.pid) != NULL)
    ensures var v := Victim(k, e);
      if v == NULL then Doom(k, e) == {} else v in Live(k.l) && KillOk(k, v) && Doom(k, e) == Subtree(k.t.forest, v)
    ensures EndsCaller(k, e) <==> k.current != NULL && Victim(k, e) == k.current
  {
    hide KInv, Settled, KillOk, Subtree, Live;
    if !IsInterrupt(e) {
      CallerIs(k, e, c, first);
    }
    if e.Terminate? {
      TargetMeaning(k, e.pid, first);
      OwnPid(k, e.pid, first);
    }
  }

  /** Nobody below the caller is found under the caller's own pid. */
  lemma OwnPid(k: KState, pid: int, first: int)
    requires KInv(k, first) && k.current != NULL
    ensures Target(k, pid) == k.current <==> pid == 0 || pid == PidAt(k.t, k.current)
  {
    hide Inv;
    if !(pid == 0 || pid == PidAt(k.t, k.current)) {
      BelowFacts(k.t.children, k.t.forest, k.current);
      PreNodes(Below(k.t.forest, k.current));
      MatchIsListed(k.t, Pre(Below(k.t.forest, k.current)), pid);
    }
  }

  lemma {:induction false} MatchIsListed(t: Tree, xs: seq<int>, pid: int)
    ensures FirstMatch(t, xs, pid) == NULL || FirstMatch(t, xs, pid) in xs
  {
    if xs != [] && PidAt(t, xs[0]) != pid {
      MatchIsListed(t, xs[1..], pid);
    }
  }

  lemma {:induction false} HandlerDoes(k: KState, e: Event, c: Clock, first: int, a: int)
    requires KInv(k, first) && Settled(k) && Possible(k, e, c)
    ensures Handled(k, e, a, Handle(k, e, c).l)
  {
    hide KInv, Settled, Handled, KillOk, KillLists, Drain, AfterRelease, AfterRequest, AfterSpawn, Handle, Target, Inv;
    OffCurrent(k, e, c, first);
    InvOf(k, first);
    HandleLists(k, e, c);
    DoomIs(k, e, c, first);
    if !IsInterrupt(e) {
      CallerIs(k, e, c, first);
    }
    if Victim(k, e) != NULL {
      KillHandled(k, e, a, Victim(k, e), first);
    } else {
      match e
      case Create(_) =>
        if k.l.free == [] {
          assert AfterSpawn(k.l) == k.l by { SpawnNothing(k.l); }
          NothingHandled(k, e, a);
        } else {
          CreateHandled(k, e, a);
        }
      case SemOp(b, w) =>
        if b == 0 {
          NothingHandled(k, e, a);
        } else if w < 0 {
          RequestHandled(k, e, a, b, w);
        } else {
          ReleaseHandled(k, e, a, b, w);
        }
      case WaitClock => RequestHandled(k, e, a, k.l.dev + 48, -1);
      case Timer =>
        if k.pseudoclock && Val(k.l.sem, k.l.dev + 48) < 0 {
          TickHandled(k, e, a);
        } else {
          if k.pseudoclock {
            DrainNothing(k.l, k.l.dev + 48);
          }
          NothingHandled(k, e, a);
        }
      case Device(i) =>
        if Val(k.l.sem, k.l.dev + i) < 1 {
          ReleaseHandled(k, e, a, k.l.dev + i, 1);
        } else {
          NothingHandled(k, e, a);
        }
      case _ => NothingHandled(k, e, a);
    }
  }

  lemma SpawnNothing(l: Lists)
    requires l.free == []
    ensures AfterSpawn(l) == l
  {
  }

  lemma DrainNothing(l: Lists, a: int)
    requires Val(l.sem, a) >= 0
    ensures Drain(l, a) == l
  {
  }

  // ----- the other fields ------------------------------------------------------------------

  /** Whom the handler leaves running, and in which mode it calls the scheduler. */
  lemma HandlerLeaves(k: KState, e: Event, c: Clock, first: int)
    requires KInv(k, first) && Settled(k) && Possible(k, e, c) && !Panics(k, e)
    ensures var m := Handle(k, e, c);
      && m.current == (if EndsCaller(k, e) || Blocks(k, e) then NULL else k.current)
      && m.flag == (if e.Timer? && k.pseudoclock then RESET else if Loads(k, e) then LOADNEXT else LOADCURRENT)
      && m.mode == k.mode && m.pseudoclock == k.pseudoclock
      && m.time.pseudoStart == k.time.pseudoStart && m.time.startTOD == k.time.startTOD
  {
    hide KInv, KillOk, KillLists, Drain, AfterRelease, AfterRequest, AfterSpawn, Target, Felled, WithChild, Doom, Subtree, Live, Is, Inv;
    TargetEntered(k, e, c);
    if !IsInterrupt(e) {
      CallerIs(k, e, c, first);
    }
    DoomIs(k, e, c, first);
  }

  /** The ready queue that the scheduler finds, with the process that an
      interrupt took the processor from at its tail. */
  ghost function Line(k: KState, e: Event): seq<int> {
    Minus(k.l.ready, Doom(k, e)) + Readied(k, e) + (if IsInterrupt(e) && k.current != NULL then [k.current] else [])
  }

  /** The scheduler takes the head of the ready queue, the process it takes the
      processor from being the last. */
  lemma SchedulerTakes(k: KState, c: Clock)
    ensures var m := Model.Schedule(k, c);
      var r := k.l.ready + if k.current == NULL then [] else [k.current];
      if k.flag == LOADCURRENT then
        m.current == k.current && m.mode == k.mode && m.l == k.l
      else if r == [] then
        m.current == NULL && m.l.ready == []
      else
        m.current == r[0] && m.l.ready == r[1..] && m.mode == Running
  {
    hide ClockChecked;
    var k1 := if k.flag == START || k.flag == RESET then k.(pseudoclock := false, time := k.time.(pseudoStart := c.reset)) else k;
    CheckedElse(Preempted(k1, c), c);
  }

  lemma CheckedElse(k: KState, c: Clock)
    ensures var m := ClockChecked(k, c); m.l == k.l && m.current == k.current && m.mode == k.mode
  {
  }

  /** Who runs after a step.  An event that asks for no choice leaves its caller
      running and the ready queue in its order; any other gives the processor
      to the head of the line, and an empty line means an idle processor, or
      the end of the machine if nobody lives. */
  lemma {:induction false} NextProcess(k: KState, e: Event, c: Clock, first: int)
    requires KInv(k, first) && Settled(k) && Possible(k, e, c) && !Panics(k, e)
    ensures var m, r := Step(k, e, c), Line(k, e);
      if !Loads(k, e) then
        m.current == k.current != NULL && m.mode == Running && m.l.ready == r
      else if r == [] then
        m.current == NULL && m.l.ready == [] && m.mode == if m.l.processCount == 0 then Halted else Idle
      else
        m.current == r[0] && m.l.ready == r[1..] && m.mode == Running
  {
    hide KInv, KillOk, Handle, Handled, Model.Schedule, Readied, Doom, Minus, Blocks, EndsCaller;
    HandleKeeps(k, e, c, first);
    HandlerLeaves(k, e, c, first);
    HandlerDoes(k, e, c, first, 0);
    HandledReady(k, e, 0, Handle(k, e, c).l);
    SchedulerTakes(Handle(k, e, c), c);
    StepKeeps(k, e, c, first);
    if !IsInterrupt(e) {
      CallerIs(k, e, c, first);
    }
    if EndsCaller(k, e) || Blocks(k, e) {
      NotInterrupt(k, e);
    }
  }

  /** The turns of the scheduler, which BoundedWaiting counts. */
  lemma {:induction false} ReschedulesIff(k: KState, e: Event, c: Clock, first: int)
    requires KInv(k, first) && Settled(k) && Possible(k, e, c)
    ensures Reschedules(k, e, c) <==> Loads(k, e) && !Panics(k, e)
  {
    hide KInv, Settled, KillOk, Handle, Loads, Panics;
    HandleKeeps(k, e, c, first);
    if !Panics(k, e) {
      HandlerLeaves(k, e, c, first);
      if e.Timer? {
        TimerLoads(k, e);
      }
    }
  }

  lemma TimerLoads(k: KState, e: Event)
    requires e.Timer?
    ensures Loads(k, e)
  {
  }

  lemma HandledReady(k: KState, e: Event, a: int, m: Lists)
    requires Handled(k, e, a, m)
    ensures m.ready == Minus(k.l.ready, Doom(k, e)) + Readied(k, e)
  {
  }

  lemma NotInterrupt(k: KState, e: Event)
    requires EndsCaller(k, e) || Blocks(k, e)
    ensures !IsInterrupt(e)
  {
  }

  /** A system call or trap leaves its caller running iff it neither blocks it,
      nor ends it, nor panics. */
  lemma {:induction false} CallerGoesOnIff(k: KState, e: Event, c: Clock, first: int)
    requires KInv(k, first) && Settled(k) && Possible(k, e, c) && !IsInterrupt(e)
    ensures var m := Step(k, e, c);
      m.mode == Running && m.current == k.current <==> !Blocks(k, e) && !EndsCaller(k, e) && !Panics(k, e)
  {
    hide KInv, Settled, Possible, KillOk, Step, Doom, Minus, Blocks, EndsCaller, Panics;
    CallerIs(k, e, c, first);
    StepKeeps(k, e, c, first);
    if !Panics(k, e) {
      NextProcess(k, e, c, first);
      if Loads(k, e) {
        ReadiesNobody(k, e);
        MinusMembers(k.l.ready, Doom(k, e));
        OffIsNotReady(k, first);
        assert Line(k, e) != [] ==> Line(k, e)[0] in Minus(k.l.ready, Doom(k, e));
      }
    }
  }

  lemma ReadiesNobody(k: KState, e: Event)
    requires EndsCaller(k, e) || Blocks(k, e)
    ensures Readied(k, e) == []
  {
  }

  lemma {:induction false} MinusMembers(q: seq<int>, s: set<int>)
    ensures forall x :: x in Minus(q, s) <==> x in q && x !in s
  {
    if q != [] {
      MinusMembers(q[1..], s);
    }
  }

  lemma OffIsNotReady(k: KState, first: int)
    requires KInv(k, first) && k.current != NULL
    ensures k.current !in k.l.ready
  {
  }

  /** SEMOP with a positive weight goes on with its caller. */
  lemma {:induction false} SignalReturns(k: KState, a: int, w: int, c: Clock, first: int)
    requires KInv(k, first) && Settled(k) && Possible(k, SemOp(a, w), c) && a != 0 && w > 0
    ensures var m := Step(k, SemOp(a, w), c); m.current == k.current && m.mode == Running && m.l == AfterRelease(k.l, a, w)
  {
    hide KInv, Settled, KillOk, AfterRelease, Step;
    NextProcess(k, SemOp(a, w), c, first);
    SignalLists(k, a, w, c);
  }

  lemma SignalLists(k: KState, a: int, w: int, c: Clock)
    requires k.mode == Running && a != 0 && w > 0
    ensures Step(k, SemOp(a, w), c).l == AfterRelease(k.l, a, w)
  {
    hide AfterRelease;
  }

  // ----- queues and words over a step ------------------------------------------------------

  lemma ScheduleNeeds(k: KState, c: Clock)
    ensures Model.Schedule(k, c).l.need == k.l.need && Model.Schedule(k, c).l.dev == k.l.dev
    ensures Model.Schedule(k, c).l.free == k.l.free
  {
    hide ClockChecked;
    var k1 := if k.flag == START || k.flag == RESET then k.(pseudoclock := false, time := k.time.(pseudoStart := c.reset)) else k;
    CheckedElse(Preempted(k1, c), c);
  }

  /** What a step does to the queue of a and to the word at a: waiters leave it
      because they die or because as many wake as fit, in order; the caller
      joins it at the tail if it blocks; the word moves by the weight of the
      event and by what is given back for the dead, which is nothing for the 49
      words of device_sem. */
  lemma {:induction false} StepWords(k: KState, e: Event, c: Clock, first: int, a: int)
    requires KInv(k, first) && Settled(k) && Possible(k, e, c)
    ensures var m, q := Step(k, e, c).l, QueueAt(k.l.queue, a);
      && QueueAt(m.queue, a) == Minus(q[Waking(k, e, a)..], Doom(k, e)) + (if BlocksAt(k, e, a) then [k.current] else [])
      && Val(m.sem, a) == Val(k.l.sem, a) + Weight(k, e, a) + Refunded(k, e, a)
      && (BlocksAt(k, e, a) ==> NeedOf(m.need, k.current) == Weight(k, e, a))
      && m.dev == k.l.dev
  {
    hide KInv, Settled, KillOk, Handle, Model.Schedule, Doom, Minus, BlocksAt, Weight, Waking, Refunded, Panics;
    HandleKeeps(k, e, c, first);
    HandlerDoes(k, e, c, first, a);
    ScheduleWords(Handle(k, e, c), c);
    ScheduleNeeds(Handle(k, e, c), c);
  }

  /** Whoever dies, no word of device_sem is given anything back. */
  lemma {:induction false} DevicesKeepLoss(k: KState, v: int, first: int, a: int)
    requires KInv(k, first) && v in Live(k.l) && KillOk(k, v) && k.l.dev <= a <= k.l.dev + 48
    ensures Val(KillTree(k, v).l.sem, a) == Val(k.l.sem, a)
  {
    hide KInv, KillOk, KillLists, Felled;
    KillWords(k, v, first, a);
  }

  // ----- the tree, the free list and the pids -----------------------------------------------

  /** e creates p. */
  predicate Born(k: KState, e: Event, p: int) {
    e.Create? && k.l.free != [] && p == k.l.free[0]
  }

  /** p is a new last child of the caller, with the pid of the source. */
  predicate IsChild(t: Tree, u: Tree, caller: int, p: int, pid: int) {
    && |u.children| == |t.children| && |u.parent| == |t.parent| && |u.pid| == |t.pid|
    && 0 <= p < |t.pid| && p < |t.parent| && p < |t.children| && 0 <= caller < |t.children|
    && u.children == t.children[caller := t.children[caller] + [p]]
    && u.parent == t.parent[p := caller] && u.pid == t.pid[p := pid]
  }

  lemma HandlerFamily(k: KState, e: Event, c: Clock, first: int)
    requires KInv(k, first) && Settled(k) && Possible(k, e, c)
    ensures var m, v := Handle(k, e, c), Victim(k, e);
      if e.Create? && k.l.free != [] then
        m.l.free == k.l.free[1..] && m.counter == k.counter + 1 &&
        m.t == WithChild(k.t, k.current, k.l.free[0], Pid.PidOf(if e.base < 0 then 0 else e.base, k.counter))
      else
        && m.counter == k.counter && m.t == (if v == NULL then k.t else Felled(k.t, v))
        && (v == NULL && e.Create? ==> m.l.free == [])
  {
    hide KInv, KillOk, KillLists, Drain, AfterRelease, AfterRequest, Target, Felled, WithChild, Doom, Subtree, Live, Is, Inv;
    TargetEntered(k, e, c);
    if !IsInterrupt(e) {
      CallerIs(k, e, c, first);
    }
    DoomIs(k, e, c, first);
  }

  lemma {:induction false} HandlerFree(k: KState, e: Event, c: Clock, first: int)
    requires KInv(k, first) && Settled(k) && Possible(k, e, c) && !e.Create?
    ensures Handle(k, e, c).l.free == k.l.free + if Victim(k, e) == NULL then [] else Dead(k.t, Victim(k, e))
  {
    hide KInv, Settled, KillOk, KillLists, Drain, AfterRelease, AfterRequest, Handle, Target, Inv, Dead, Live;
    OffCurrent(k, e, c, first);
    InvOf(k, first);
    HandleLists(k, e, c);
    DoomIs(k, e, c, first);
    forall a, w
      ensures AfterRelease(k.l, a, w).free == k.l.free && AfterRequest(k.l, k.current, a, w).free == k.l.free
    {
      FreeKept(k.l, k.current, a, w);
    }
    if e.Timer? && k.pseudoclock && Val(k.l.sem, ClockSem(k.l)) < 0 {
      DrainWakesAll(k.l, ClockSem(k.l));
    } else if e.Timer? && k.pseudoclock {
      DrainNothing(k.l, ClockSem(k.l));
    }
    if Victim(k, e) != NULL {
      KillKeepsLists(k, Victim(k, e), first);
    }
  }

  lemma FreeKept(l: Lists, p: int, a: int, w: int)
    ensures AfterRelease(l, a, w).free == l.free && AfterRequest(l, p, a, w).free == l.free
  {
  }

  /** What a step does to the tree, to the free list and to the counter of pids:
      a creation takes the head of the free list as a new last child, with the
      pid that pid_generator makes of the counter; a kill cuts the subtree off
      and appends the dead to the free list; nothing else touches them. */
  lemma {:induction false} StepFamily(k: KState, e: Event, c: Clock, first: int)
    requires KInv(k, first) && Settled(k) && Possible(k, e, c)
    ensures var m, v := Step(k, e, c), Victim(k, e);
      if e.Create? && k.l.free != [] then
        && m.l.free == k.l.free[1..] && m.counter == k.counter + 1
        && IsChild(k.t, m.t, k.current, k.l.free[0], Pid.PidOf(if e.base < 0 then 0 else e.base, k.counter))
      else
        && m.counter == k.counter && m.t == (if v == NULL then k.t else Felled(k.t, v))
        && m.l.free == k.l.free + if v == NULL then [] else Dead(k.t, v)
  {
    hide KInv, Settled, KillOk, Handle, Model.Schedule, Felled, Panics, Victim, Dead, WithChild;
    HandlerFamily(k, e, c, first);
    HandleKeeps(k, e, c, first);
    ScheduleNeeds(Handle(k, e, c), c);
    ScheduleFamily(Handle(k, e, c), c);
    if e.Create? {
      CreatesNobodyDies(k, e);
      CallerIs(k, e, c, first);
      ChildIs(k, first, Pid.PidOf(if e.base < 0 then 0 else e.base, k.counter));
    } else {
      HandlerFree(k, e, c, first);
    }
  }

  lemma CreatesNobodyDies(k: KState, e: Event)
    requires e.Create?
    ensures Victim(k, e) == NULL
  {
  }

  lemma ScheduleFamily(k: KState, c: Clock)
    ensures Model.Schedule(k, c).t == k.t && Model.Schedule(k, c).counter == k.counter
  {
    hide Preempted, ClockChecked, Dispatched;
    var k1 := if k.flag == START || k.flag == RESET then k.(pseudoclock := false, time := k.time.(pseudoStart := c.reset)) else k;
    LoadFamily(k1, c);
    LoadFamily(Preempted(k1, c), c);
  }

  lemma LoadFamily(k: KState, c: Clock)
    ensures Preempted(k, c).t == k.t && Preempted(k, c).counter == k.counter
    ensures Dispatched(ClockChecked(k, c), c).t == k.t && Dispatched(ClockChecked(k, c), c).counter == k.counter
  {
    hide AfterRequeue, AfterDispatch;
  }

  lemma ChildIs(k: KState, first: int, pid: int)
    requires KInv(k, first) && k.current != NULL
    ensures k.l.free != [] ==> IsChild(k.t, WithChild(k.t, k.current, k.l.free[0], pid), k.current, k.l.free[0], pid)
  {
    assert k.l.free != [] ==> k.l.free[0] in k.l.free;
    assert Is(k.l, k.current, Off);
  }
}
