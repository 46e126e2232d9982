/** Every step of the kernel keeps the invariant; when the machine stops. */
module ModelInvariant {
  import opened Clist
  import opened Forests
  import opened Lists
  import opened Semaphores
  import opened Progress
  import opened Processes
  import opened Model

  lemma InvOf(k: KState, first: int)
    requires KInv(k, first)
    ensures Inv(k.l) && CurrentOk(k.l, k.current)
  {
  }

  // ----- the kill ----------------------------------------------------------------

  /** The subtree below v, less v, is entirely blocked. */
  lemma {:induction false} BelowIsBlocked(k: KState, v: int, first: int)
    requires KInv(k, first) && v in Live(k.l) && NoReadyBelow(k, v) && k.current !in Nodes(Below(k.t.forest, v))
    ensures var ks := Post(Below(k.t.forest, v));
      Victims(k.l, ks) && v !in ks && Subtree(k.t.forest, v) == {v} + Members(ks)
  {
    var g := Below(k.t.forest, v);
    BelowFacts(k.t.children, k.t.forest, v);
    PostNodes(g);
    MembersAre(Post(g), Nodes(g));
    LeftoversBlocked(k.l, Post(g), k.current);
  }

  lemma LeftoversBlocked(l: Lists, ks: seq<int>, current: int)
    requires Placed(l) && CurrentOk(l, current) && Distinct(ks)
    requires forall p :: p in ks ==> p in Live(l) && p !in l.ready && p != current
    ensures Victims(l, ks)
  {
    forall p | p in ks
      ensures IsBlocked(l, p)
    {
      assert !Is(l, p, Off) && 0 <= p < |l.status|;
    }
  }

  lemma MembersAre(q: seq<int>, s: set<int>)
    requires forall x :: x in q <==> x in s
    ensures Members(q) == s
  {
    forall x
      ensures x in Members(q) <==> x in s
    {
      assert x in Members(q) <==> x in q;
    }
  }

  lemma {:induction false} DeadOnce(t: Tree, v: int)
    requires Spells(t.children, t.forest) && Simple(t.forest) && v in Nodes(t.forest)
    ensures Distinct(Dead(t, v)) && Members(Dead(t, v)) == Subtree(t.forest, v) && Subtree(t.forest, v) <= Nodes(t.forest)
    ensures v !in Post(Below(t.forest, v)) && forall x :: x in Post(Below(t.forest, v)) <==> x in Nodes(Below(t.forest, v))
  {
    var g := Below(t.forest, v);
    BelowFacts(t.children, t.forest, v);
    PostNodes(g);
    DistinctConcat(Post(g), [v]);
    MembersAre(Post(g) + [v], Nodes(g) + {v});
  }

  /** The subtree of v, children first. */
  lemma {:induction false} DeadAreSubtree(k: KState, v: int, first: int)
    requires KInv(k, first) && v in Live(k.l)
    ensures Condemned(k.l, Dead(k.t, v)) && Members(Dead(k.t, v)) == Subtree(k.t.forest, v)
    ensures v !in Post(Below(k.t.forest, v)) && forall x :: x in Post(Below(k.t.forest, v)) <==> x in Nodes(Below(k.t.forest, v))
  {
    hide Inv, Linked, Spells, Simple, Dead, Distinct, Below, Nodes, Post, Subtree;
    DeadOnce(k.t, v);
    forall p | p in Dead(k.t, v)
      ensures p in Live(k.l)
    {
      assert p in Members(Dead(k.t, v));
    }
  }

  /** Where the kill does no damage, the kernel as written and the repaired one
      do the same. */
  lemma {:induction false} KillListsAre(k: KState, v: int, first: int)
    requires KInv(k, first) && v in Live(k.l) && KillOk(k, v)
    ensures KillLists(k.l, k.t, v, k.repaired) == Kills(k.l, Dead(k.t, v))
  {
    hide Inv, Kills, Reaps, AfterKill;
    if !k.repaired {
      var ks := Post(Below(k.t.forest, v));
      DeadAreSubtree(k, v, first);
      KillsAreReaps(k.l, ks);
      KillsConcat(k.l, ks, [v]);
      KillsOne(Kills(k.l, ks), v);
    }
  }

  /** A kill takes exactly the subtree of v out of the live processes. */
  lemma {:induction false} KillKeepsLists(k: KState, v: int, first: int)
    requires KInv(k, first) && v in Live(k.l) && KillOk(k, v)
    ensures var m := KillLists(k.l, k.t, v, k.repaired);
      && Inv(m) && m.dev == k.l.dev && |m.status| == |k.l.status|
      && Live(m) == Live(k.l) - Subtree(k.t.forest, v)
      && m.free == k.l.free + Dead(k.t, v)
      && m.ready == Minus(k.l.ready, Subtree(k.t.forest, v))
      && forall p {:trigger m.status[p]} :: 0 <= p < |m.status| ==>
           m.status[p] == if p in Subtree(k.t.forest, v) then Free else k.l.status[p]
  {
    hide Inv, KInv, Kills, KillOk, KillLists, Dead, Condemned, Minus;
    InvOf(k, first);
    DeadAreSubtree(k, v, first);
    KillListsAre(k, v, first);
    KillsKeep(k.l, Dead(k.t, v));
    KilledStatus(k.l, Dead(k.t, v), Kills(k.l, Dead(k.t, v)), Subtree(k.t.forest, v));
  }

  lemma KilledStatus(l: Lists, ks: seq<int>, m: Lists, s: set<int>)
    requires Killed(l, ks, m) && s == Members(ks)
    ensures |m.status| == |l.status| && Live(m) == Live(l) - s
    ensures forall p {:trigger m.status[p]} :: 0 <= p < |m.status| ==> m.status[p] == if p in s then Free else l.status[p]
  {
    forall p | 0 <= p < |m.status|
      ensures m.status[p] == if p in s then Free else l.status[p]
    {
      assert m.status[p] == if p in ks then Free else l.status[p];
    }
  }

  lemma {:induction false} KillTreeKeeps(k: KState, v: int, first: int)
    requires KInv(k, first) && v in Live(k.l) && KillOk(k, v) && k.current !in Nodes(Below(k.t.forest, v))
    ensures KInv(KillTree(k, v).(current := if v == k.current then NULL else k.current), first)
  {
    var m := KillLists(k.l, k.t, v, k.repaired);
    KillKeepsLists(k, v, first);
    KillCurrentOk(k.l, m, Subtree(k.t.forest, v), k.current, if v == k.current then NULL else k.current);
    FelledKeeps(k.t, |k.l.status|, Live(k.l), first, v);
  }

  lemma KillCurrentOk(l: Lists, m: Lists, s: set<int>, current: int, left: int)
    requires CurrentOk(l, current) && |m.status| == |l.status|
    requires left == if current in s then NULL else current
    requires forall p {:trigger m.status[p]} :: 0 <= p < |m.status| ==> m.status[p] == if p in s then Free else l.status[p]
    ensures CurrentOk(m, left)
  {
    forall p | Is(m, p, Off)
      ensures p == left
    {
      assert Is(l, p, Off);
    }
  }

  // ----- whom a kill hits ------------------------------------------------------------

  lemma {:induction false} FirstMatchMeaning(t: Tree, xs: seq<int>, pid: int)
    requires NULL !in xs
    ensures FirstMatch(t, xs, pid) == NULL ==> forall x :: x in xs ==> PidAt(t, x) != pid
    ensures FirstMatch(t, xs, pid) != NULL ==> exists i :: IsFirst(t, xs, pid, i) && xs[i] == FirstMatch(t, xs, pid)
  {
    if xs != [] && PidAt(t, xs[0]) == pid {
      assert xs[0] in xs && IsFirst(t, xs, pid, 0);
    } else if xs != [] {
      var r := xs[1..];
      FirstMatchMeaning(t, r, pid);
      if FirstMatch(t, r, pid) == NULL {
        forall x | x in xs
          ensures PidAt(t, x) != pid
        {
          assert x == xs[0] || x in r;
        }
      } else {
        var i :| IsFirst(t, r, pid, i) && r[i] == FirstMatch(t, r, pid);
        assert xs[i + 1] == r[i];
        assert forall j {:trigger xs[j]} :: 0 < j <= |r| ==> xs[j] == r[j - 1];
        assert IsFirst(t, xs, pid, i + 1);
      }
    }
  }

  /** The first process of xs with that pid is at index i. */
  ghost predicate IsFirst(t: Tree, xs: seq<int>, pid: int, i: int) {
    0 <= i < |xs| && PidAt(t, xs[i]) == pid && forall j :: 0 <= j < i ==> PidAt(t, xs[j]) != pid
  }

  /** terminate_process finds a process iff the pid is 0, the caller's, or that
      of one of its descendants; it is then the caller or below it. */
  lemma {:induction false} TargetMeaning(k: KState, pid: int, first: int)
    requires KInv(k, first) && k.current != NULL
    ensures Target(k, pid) == NULL <==> pid != 0 && forall x :: x in Subtree(k.t.forest, k.current) ==> PidAt(k.t, x) != pid
    ensures Target(k, pid) != NULL ==>
      && Target(k, pid) in Live(k.l) && Target(k, pid) in Subtree(k.t.forest, k.current)
      && k.current !in Nodes(Below(k.t.forest, Target(k, pid)))
      && (pid != 0 ==> PidAt(k.t, Target(k, pid)) == pid)
  {
    var cur, g := k.current, Below(k.t.forest, k.current);
    assert cur in Live(k.l);
    BelowFacts(k.t.children, k.t.forest, cur);
    PreNodes(g);
    assert NULL !in Nodes(g);
    FirstMatchMeaning(k.t, Pre(g), pid);
    var v := Target(k, pid);
    if v != NULL && v != cur {
      assert v in Pre(g);
      BelowNested(k.t, cur, v);
    }
  }

  /** Nobody is below a process that is below it. */
  lemma {:induction false} BelowNested(t: Tree, u: int, v: int)
    requires Spells(t.children, t.forest) && Simple(t.forest) && u in Nodes(t.forest) && v in Nodes(Below(t.forest, u))
    ensures v in Nodes(t.forest) && Subtree(t.forest, v) <= Nodes(Below(t.forest, u))
    ensures u !in Nodes(Below(t.forest, v))
    ensures Below(Below(t.forest, u), v) == Below(t.forest, v) && Simple(Below(t.forest, u))
  {
    BelowFacts(t.children, t.forest, u);
    var g := Below(t.forest, u);
    BelowFacts(t.children, g, v);
    BelowFacts(t.children, t.forest, v);
    SpellsUnique(t.children, Below(g, v), Below(t.forest, v));
  }

  lemma {:induction false} MatchIsFirst(t: Tree, xs: seq<int>, pid: int, x: int)
    requires x in xs && PidAt(t, x) == pid && FirstMatch(t, xs, pid) != x
    ensures Before(xs, FirstMatch(t, xs, pid), x)
  {
    if PidAt(t, xs[0]) != pid {
      MatchIsFirst(t, xs[1..], pid, x);
    }
  }

  /** If several descendants of the caller have the pid, the one that dies has
      the others below it or is elder. */
  lemma {:induction false} TargetIsFirst(k: KState, pid: int, first: int, x: int)
    requires KInv(k, first) && k.current != NULL && Target(k, pid) != k.current
    requires x in Nodes(Below(k.t.forest, k.current)) && PidAt(k.t, x) == pid && x != Target(k, pid)
    ensures x in Nodes(Below(k.t.forest, Target(k, pid))) || Elder(Below(k.t.forest, k.current), Target(k, pid), x)
  {
    hide Inv, Linked, Below, Nodes, Elder, Spells, Simple, FirstMatch;
    var g, v := Below(k.t.forest, k.current), Target(k, pid);
    assert k.current in Live(k.l);
    BelowFacts(k.t.children, k.t.forest, k.current);
    PreNodes(g);
    MatchIsFirst(k.t, Pre(g), pid, x);
    PreOrder(g, v, x);
    BelowInside(g, v);
    ElderInside(g, v, x);
    assert x in Nodes(Below(g, v)) ==> Below(g, v) != Nil && v in Nodes(g) by { NilIsEmpty(); }
    if v in Nodes(g) {
      BelowNested(k.t, k.current, v);
    }
  }

  lemma NilIsEmpty()
    ensures Nodes(Nil) == {}
  {
  }

  /** The dead are freed children first, and elders first. */
  lemma {:induction false} DeadOrder(k: KState, v: int, first: int, x: int, y: int)
    requires KInv(k, first) && v in Live(k.l) && x in Subtree(k.t.forest, v) && y in Subtree(k.t.forest, v)
    ensures Before(Dead(k.t, v), x, y) <==> x in Nodes(Below(k.t.forest, y)) || Elder(Below(k.t.forest, v), x, y)
  {
    hide Inv, Linked, Below, Nodes, Elder, Spells, Simple, Post, Before;
    var g := Below(k.t.forest, v);
    BelowFacts(k.t.children, k.t.forest, v);
    PostNodes(g);
    PostOrder(g, x, y);
    BeforeOne(v, x, y);
    BeforeConcat(Post(g), [v], x, y);
    ElderInside(g, x, y);
    BelowInside(g, y);
    if y != v {
      BelowNested(k.t, v, y);
    }
  }

  // ----- the scheduler ------------------------------------------------------------------

  lemma {:induction false} RequeueFacts(l: Lists, p: int)
    requires Inv(l) && Is(l, p, Off) && CurrentOk(l, p)
    ensures var m := AfterRequeue(l, p);
      Inv(m) && CurrentOk(m, NULL) && Live(m) == Live(l) && |m.status| == |l.status| && m.dev == l.dev
  {
    RequeueKeeps(l, p);
    var m := AfterRequeue(l, p);
    forall x | Is(m, x, Off)
      ensures false
    {
      assert Is(l, x, Off);
    }
  }

  lemma {:induction false} PreemptedKeeps(k: KState, c: Clock, first: int)
    requires KInv(k, first)
    ensures KInv(Preempted(k, c), first) && Preempted(k, c).current == NULL
  {
    if k.current != NULL {
      RequeueFacts(k.l, k.current);
    }
  }

  lemma {:induction false} DispatchFacts(l: Lists)
    requires Inv(l) && l.ready != [] && CurrentOk(l, NULL)
    ensures var m, p := AfterDispatch(l), l.ready[0];
      && Inv(m) && CurrentOk(m, p) && p != NULL && Live(m) == Live(l) && |m.status| == |l.status| && m.dev == l.dev
      && m.processCount > 0
  {
    var p := l.ready[0];
    assert p in l.ready;
    DispatchKeeps(l);
    var m := AfterDispatch(l);
    forall x | Is(m, x, Off)
      ensures x == p
    {
      assert Is(l, x, Off) || x == p;
    }
    assert p in Live(m);
  }

  lemma {:induction false} DispatchedKeeps(k: KState, c: Clock, first: int)
    requires KInv(k, first) && k.current == NULL
    ensures var m := Dispatched(k, c); KInv(m, first) && Settled(m) && m.mode != Panicked
  {
    if k.l.ready == [] {
      IdleCounters(k.l);
    } else {
      DispatchFacts(k.l);
    }
  }

  lemma CheckedKeeps(k: KState, c: Clock, first: int)
    requires KInv(k, first)
    ensures KInv(ClockChecked(k, c), first) && ClockChecked(k, c).current == k.current
  {
  }

  lemma ResetKeeps(k: KState, c: Clock, first: int)
    requires KInv(k, first)
    ensures KInv(k.(pseudoclock := false, time := k.time.(pseudoStart := c.reset)), first)
  {
  }

  /** The scheduler leaves a settled state, and never the PANIC branch of
      deadlock_detection; LOADCURRENT finds a current process. */
  lemma {:induction false} ScheduleKeeps(k: KState, c: Clock, first: int)
    requires KInv(k, first) && (k.flag == LOADCURRENT ==> k.current != NULL && k.mode == Running)
    ensures var m := Schedule(k, c); KInv(m, first) && Settled(m) && m.mode != Panicked
  {
    if k.flag == LOADCURRENT {
      assert k.current in Live(k.l);
    } else {
      hide Inv, TreeInv, Preempted, ClockChecked, Dispatched;
      var k1 := if k.flag == START || k.flag == RESET then k.(pseudoclock := false, time := k.time.(pseudoStart := c.reset)) else k;
      ResetKeeps(k, c, first);
      PreemptedKeeps(k1, c, first);
      CheckedKeeps(Preempted(k1, c), c, first);
      DispatchedKeeps(ClockChecked(Preempted(k1, c), c), c, first);
    }
  }

  // ----- main -----------------------------------------------------------------------------

  lemma {:induction false} PoweredOnInv(mc: Machine)
    requires mc.n >= 1
    ensures Inv(InitialLists(mc)) && InitialLists(mc).free[0] == 0
  {
    var l := InitialLists(mc);
    assert Live(l) == {} && Waiting(l) == {};
    forall p | 0 <= p < mc.n
      ensures p in l.free
    {
      assert l.free[p] == p;
    }
  }

  lemma FirstTree(n: nat, pid: seq<int>)
    requires n >= 1 && |pid| == n
    ensures TreeInv(NoTree(n).(pid := pid, forest := Cons(0, Nil, Nil)), n, {0}, 0)
  {
    var t := NoTree(n).(pid := pid, forest := Cons(0, Nil, Nil));
    assert Linked(t, n);
    assert Nodes(Nil) == {} && Roots(Nil) == [] && Spells(t.children, Nil) && Simple(Nil);
    assert Nodes(t.forest) == {0};
    assert t.children[0] == [];
  }

  /** The machine that main builds satisfies the invariant, and process 0 is
      the first one. */
  lemma {:induction false} FirstKeeps(mc: Machine, base: nat, c: Clock)
    requires Sound(mc)
    ensures var k := FirstProcess(PoweredOn(mc), base);
      && KInv(k, 0) && k.flag == START && k.current == NULL && k.l.ready == [0] && k.mode == Idle
    ensures var k := Booted(mc, base, c); KInv(k, 0) && Settled(k) && k.current == 0 && k.mode == Running
  {
    var l := InitialLists(mc);
    var k := FirstProcess(PoweredOn(mc), base);
    PoweredOnInv(mc);
    SpawnKeeps(l);
    assert Live(k.l) == {0};
    FirstTree(mc.n, k.t.pid);
    ScheduleKeeps(k, c, 0);
  }

  // ----- the system calls -----------------------------------------------------------------

  lemma {:induction false} SpawnFacts(l: Lists, current: int)
    requires Inv(l) && l.free != [] && CurrentOk(l, current)
    ensures var m, c := AfterSpawn(l), l.free[0];
      && Inv(m) && CurrentOk(m, current) && Live(m) == Live(l) + {c} && c !in Live(l) && 0 <= c < |l.status|
      && |m.status| == |l.status| && m.dev == l.dev
  {
    var c := l.free[0];
    assert c in l.free;
    SpawnKeeps(l);
    var m := AfterSpawn(l);
    forall p | Is(m, p, Off)
      ensures p == current
    {
      assert Is(l, p, Off);
    }
  }

  lemma {:induction false} CreateKeeps(k: KState, base: int, first: int)
    requires KInv(k, first) && k.current != NULL && k.counter < Pid.LARGEST
    ensures KInv(CreateProcess(k, base), first)
  {
    if k.l.free != [] {
      var c := k.l.free[0];
      SpawnFacts(k.l, k.current);
      assert k.current in Live(k.l);
      WithChildKeeps(k.t, |k.l.status|, Live(k.l), first, k.current, c, Pid.PidOf(if base < 0 then 0 else base, k.counter));
    }
  }

  /** What a handler leaves to the scheduler. */
  ghost predicate Ready4Scheduler(k: KState, first: int) {
    KInv(k, first) && (k.flag == LOADCURRENT ==> k.current != NULL && k.mode == Running)
  }

  lemma {:induction false} KillCurrentKeeps(k: KState, first: int)
    requires KInv(k, first) && k.current != NULL && KillOk(k, k.current)
    ensures KInv(KillCurrent(k), first)
  {
    assert k.current in Live(k.l);
    BelowFacts(k.t.children, k.t.forest, k.current);
    KillTreeKeeps(k, k.current, first);
  }

  lemma {:induction false} SemaphoreKeeps(k: KState, a: int, w: int, c: Clock, first: int)
    requires KInv(k, first) && k.current != NULL && k.mode == Running
    requires a != 0 && w == 0 ==> KillOk(k, k.current)
    ensures var m := SemaphoreOperation(k, a, w, c);
      if a == 0 then m == k.(mode := Panicked) else Ready4Scheduler(m, first) && m.mode == Running
  {
    if a != 0 && w == 0 {
      KillCurrentKeeps(k, first);
    } else if a != 0 {
      var op := if w < 0 then Request(k.current, a, w) else Release(a, w);
      InvPreserved(k.l, op);
      Shape(k.l, op);
      LiveKept(k.l, op);
    }
  }

  /** Requests and releases move the caller or waiters, and nobody dies. */
  lemma {:induction false} LiveKept(l: Lists, op: Op)
    requires Inv(l) && Enabled(l, op) && (op.Request? || op.Release?)
    ensures var m := Apply(l, op);
      && |m.status| == |l.status| && Live(m) == Live(l)
      && forall p {:trigger Is(m, p, Off)} :: Is(m, p, Off) <==>
           Is(l, p, Off) && (op.Request? && p == op.p ==> Val(l.sem, op.a) + op.w >= 0)
  {
    if op.Release? {
      var k := ReleaseWakesLongestPrefix(l, op.a, op.w);
      QueueNeeds(l, op.a);
      var m := AfterRelease(l, op.a, op.w);
      forall p | 0 <= p < |l.status|
        ensures m.status[p] == l.status[p] || (m.status[p] == Ready && l.status[p] == Blocked(op.a))
      {
        assert p in QueueAt(l.queue, op.a)[..k] ==> p in QueueAt(l.queue, op.a);
      }
    }
  }

  lemma {:induction false} ServeKeeps(k: KState, e: Event, c: Clock, first: int)
    requires KInv(k, first) && k.current != NULL && k.mode == Running && k.flag == LOADCURRENT
    requires (e.Create? ==> k.counter < Pid.LARGEST) && (Victim(k, e) != NULL ==> KillOk(k, Victim(k, e)))
    ensures var m := Serve(k, e, c);
      if (e.SemOp? && e.addr == 0) || (e.Terminate? && Target(k, e.pid) == NULL) then m == k.(mode := Panicked)
      else Ready4Scheduler(m, first) && m.mode == Running
  {
    match e
    case Create(base) => CreateKeeps(k, base, first);
    case Terminate(pid) =>
      TargetMeaning(k, pid, first);
      if Target(k, pid) == k.current {
        KillCurrentKeeps(k, first);
      } else if Target(k, pid) != NULL {
        KillTreeKeeps(k, Target(k, pid), first);
      }
    case SemOp(a, w) => SemaphoreKeeps(k, a, w, c, first);
    case WaitClock => SemaphoreKeeps(k, ClockSem(k.l), -1, c, first);
    case _ =>
  }

  // ----- interrupts ------------------------------------------------------------------------

  lemma {:induction false} DrainKeeps(l: Lists, a: int)
    requires Inv(l)
    ensures Inv(Drain(l, a)) && |Drain(l, a).status| == |l.status| && Live(Drain(l, a)) == Live(l) && Drain(l, a).dev == l.dev
    ensures forall p {:trigger Is(Drain(l, a), p, Off)} :: Is(Drain(l, a), p, Off) <==> Is(l, p, Off)
    decreases if Val(l.sem, a) < 0 then -Val(l.sem, a) else 0
  {
    if Val(l.sem, a) < 0 {
      InvPreserved(l, Release(a, 1));
      LiveKept(l, Release(a, 1));
      DrainKeeps(AfterRelease(l, a, 1), a);
    }
  }

  lemma {:induction false} DrainedKeeps(k: KState, first: int)
    requires KInv(k, first)
    ensures KInv(k.(l := Drain(k.l, ClockSem(k.l)), flag := RESET), first)
  {
    hide Inv, Drain, TreeInv;
    DrainKeeps(k.l, ClockSem(k.l));
  }

  lemma {:induction false} SignalledKeeps(k: KState, a: int, first: int)
    requires KInv(k, first)
    ensures KInv(k.(l := AfterRelease(k.l, a, 1)), first)
  {
    hide Inv, AfterRelease, TreeInv;
    InvPreserved(k.l, Release(a, 1));
    LiveKept(k.l, Release(a, 1));
    Shape(k.l, Release(a, 1));
  }

  lemma {:induction false} InterruptKeeps(k: KState, e: Event, c: Clock, first: int)
    requires KInv(k, first) && k.flag == LOADNEXT && (e.Timer? || e.Device?)
    ensures var m := if e.Timer? then TimerHandler(k) else DevHandler(k, e.i);
      Ready4Scheduler(m, first) && m.flag != LOADCURRENT && m.current == k.current && m.mode == k.mode
  {
    hide KInv, Drain, AfterRelease;
    if e.Timer? {
      DrainedKeeps(k, first);
    } else {
      SignalledKeeps(k, k.l.dev + e.i, first);
    }
  }

  // ----- steps --------------------------------------------------------------------------------

  /** The kernel panics exactly on a NULL semaphore or an unknown pid. */
  predicate Panics(k: KState, e: Event) {
    (e.SemOp? && e.addr == 0) || (e.Terminate? && Target(k, e.pid) == NULL)
  }

  predicate IsSyscall(e: Event) {
    e.Create? || e.Terminate? || e.SemOp? || e.WaitClock? || e.Plain?
  }

  lemma EnteredParts(k: KState, e: Event, c: Clock, flag: Flag, first: int)
    requires KInv(k, first) && Settled(k) && Possible(k, e, c)
    ensures KInv(Entered(k, flag, c), first) && Entered(k, flag, c).current == k.current && Entered(k, flag, c).mode == k.mode
    ensures Victim(Entered(k, flag, c), e) == Victim(k, e)
    ensures Victim(k, e) != NULL ==> KillOk(Entered(k, flag, c), Victim(k, e))
    ensures IsSyscall(e) || e.Trap? ==> k.current != NULL
  {
  }

  lemma ChargedKeeps(k: KState, c: Clock, first: int)
    ensures KInv(k, first) <==> KInv(Charged(k, c), first)
    ensures Ready4Scheduler(k, first) <==> Ready4Scheduler(Charged(k, c), first)
    ensures var m := Charged(k, c); m.mode == k.mode && m.l == k.l && m.t == k.t && m.current == k.current && m.flag == k.flag
  {
  }

  lemma {:induction false} HandleKeeps(k: KState, e: Event, c: Clock, first: int)
    requires KInv(k, first) && Settled(k) && Possible(k, e, c)
    ensures var m := Handle(k, e, c);
      if Panics(k, e) then m.mode == Panicked && m.l == k.l && m.t == k.t && m.current == k.current
      else Ready4Scheduler(m, first) && m.mode != Panicked
  {
    hide KInv, KillOk, Ready4Scheduler, Target, KillCurrent, Model.Serve, TimerHandler, DevHandler, Charged;
    match e
    case Trap =>
      EnteredParts(k, e, c, k.flag, first);
      KillCurrentKeeps(Entered(k, k.flag, c), first);
      KilledSelf(Entered(k, k.flag, c), first);
    case Timer =>
      EnteredParts(k, e, c, LOADNEXT, first);
      InterruptKeeps(Entered(k, LOADNEXT, c), e, c, first);
      ChargedKeeps(TimerHandler(Entered(k, LOADNEXT, c)), c, first);
    case Device(i) =>
      EnteredParts(k, e, c, LOADNEXT, first);
      InterruptKeeps(Entered(k, LOADNEXT, c), e, c, first);
      ChargedKeeps(DevHandler(Entered(k, LOADNEXT, c), i), c, first);
    case _ =>
      EnteredParts(k, e, c, LOADCURRENT, first);
      ServeKeeps(Entered(k, LOADCURRENT, c), e, c, first);
      ChargedKeeps(Model.Serve(Entered(k, LOADCURRENT, c), e, c), c, first);
      TargetEntered(k, e, c);
  }

  lemma TargetEntered(k: KState, e: Event, c: Clock)
    ensures e.Terminate? ==> Target(Entered(k, LOADCURRENT, c), e.pid) == Target(k, e.pid)
  {
  }

  lemma KilledSelf(k: KState, first: int)
    requires KInv(KillCurrent(k), first)
    ensures Ready4Scheduler(KillCurrent(k), first) && KillCurrent(k).mode == k.mode
  {
  }

  /** Every step keeps the invariant. */
  lemma {:induction false} StepKeeps(k: KState, e: Event, c: Clock, first: int)
    requires KInv(k, first) && Settled(k) && Possible(k, e, c)
    ensures KInv(Step(k, e, c), first)
    ensures Step(k, e, c).mode == Panicked <==> Panics(k, e)
    ensures Panics(k, e) ==> Step(k, e, c).l == k.l && Step(k, e, c).t == k.t && Step(k, e, c).current == k.current != NULL
    ensures Step(k, e, c).mode != Panicked ==> Settled(Step(k, e, c))
  {
    HandleKeeps(k, e, c, first);
    if !Panics(k, e) {
      ScheduleKeeps(Handle(k, e, c), c, first);
    }
  }
}
