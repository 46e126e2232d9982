/** The death of processes (source/syscall.c:68-167). */
module Termination {
  import opened Clist
  import opened Forests
  import opened Lists
  import opened Semaphores
  import opened Processes
  import opened Model
  import opened Memory
  import opened PcbQueues
  import opened ProcessTree
  import opened ActiveSemaphores

  // ----- words and counters ---------------------------------------------------------

  /** The links do not depend on values and counts. */
  lemma RepValues(m: Mem, sem: map<int, int>, pc: int, sc: int)
    requires Rep(m)
    ensures Rep(m.(l := m.l.(sem := sem, processCount := pc, softBlockCount := sc)))
  {
  }

  /** *semaddr = v */
  method SetWord(k: Kernel, a: int, v: int)
    requires k.Core()
    modifies k`word, k`l
    ensures k.Core() && k.l == old(k.l).(sem := old(k.l.sem)[a := v])
  {
    hide Rep;
    RepValues(k.Snap(), k.l.sem[a := v], k.l.processCount, k.l.softBlockCount);
    k.word := k.word[a := v];
    k.l := k.l.(sem := k.l.sem[a := v]);
  }

  /** process_count and soft_block_count move. */
  method Count(k: Kernel, dp: int, ds: int)
    requires k.Core()
    modifies k`processCount, k`softBlockCount, k`l
    ensures k.Core()
    ensures k.l == old(k.l).(processCount := old(k.l.processCount) + dp, softBlockCount := old(k.l.softBlockCount) + ds)
  {
    hide Rep;
    RepValues(k.Snap(), k.l.sem, k.l.processCount + dp, k.l.softBlockCount + ds);
    k.processCount := k.processCount + dp;
    k.softBlockCount := k.softBlockCount + ds;
    k.l := k.l.(processCount := k.l.processCount + dp, softBlockCount := k.l.softBlockCount + ds);
  }

  // ----- leaving a semaphore ---------------------------------------------------------

  ghost function LeftSemaphore(l: Lists, p: int): Lists {
    if IsBlocked(l, p) then Unblocked(l, p, l.status[p].addr) else l
  }

  lemma RepSized(m: Mem)
    requires Rep(m)
    ensures Sized(m)
  {
  }

  lemma CursemMeans(m: Mem, p: int)
    requires Rep(m) && 0 <= p < |m.pl| && (m.l.status[p].Blocked? || m.l.status[p] == Ready)
    ensures m.ps[p].resWait == NeedOf(m.l.need, p)
    ensures m.ps[p].cursem != NULL <==> IsBlocked(m.l, p)
    ensures IsBlocked(m.l, p) ==> 0 <= m.ps[p].cursem < |m.sd| && m.sd[m.ps[p].cursem].semAdd == m.l.status[p].addr
  {
    if IsBlocked(m.l, p) {
      BlockedIsQueued(m, p);
    }
  }

  function GivenBack(l: Lists, p: int, a: int): Lists {
    if IsDevice(l, a) then l else l.(sem := l.sem[a := Val(l.sem, a) - NeedOf(l.need, p)])
  }

  lemma LeaveMeans(l: Lists, p: int, a: int, l1: Lists, l2: Lists, l3: Lists)
    requires Is(l, p, Blocked(a)) && l1 == GivenBack(l, p, a)
    requires l2 == Unlinked(l1, p, a)
    requires l3 == l2.(processCount := l2.processCount + 0, softBlockCount := l2.softBlockCount + -1)
    ensures l3 == LeftSemaphore(l, p)
  {
  }

  lemma GivenBackKeeps(l: Lists, p: int, a: int)
    requires Is(l, p, Blocked(a))
    ensures GivenBack(l, p, a).status == l.status && Is(GivenBack(l, p, a), p, Blocked(a))
  {
  }

  lemma LeftWords(l: Lists, p: int)
    ensures forall a ::
      Val(LeftSemaphore(l, p).sem, a) == Val(l.sem, a) +
        if Is(l, p, Blocked(a)) && !(l.dev <= a <= l.dev + 48) then -NeedOf(l.need, p) else 0
  {
  }

  /** The value is given back what p waited for, unless a device owns it. */
  method GiveBack(k: Kernel, p: int, a: int)
    requires k.Core() && Is(k.l, p, Blocked(a))
    modifies k`word, k`l
    ensures k.Core() && k.l == GivenBack(old(k.l), p, a)
  {
    hide Rep;
    RepSized(k.Snap());
    CursemMeans(k.Snap(), p);
    var weight := k.pcbs[p].resWait;
    if !(k.dev <= a && a <= k.dev + MAX_DEVICES - 1) {
      SetWord(k, a, Val(k.word, a) - weight);
    }
  }

  /** A dying process leaves its semaphore (source/syscall.c:79-90, 150-161). */
  method LeaveSemaphore(k: Kernel, p: int)
    requires k.Core() && 0 <= p < k.n && (k.l.status[p].Blocked? || k.l.status[p] == Ready)
    modifies k`l, k`asl, k`sfree, k`owner, k`aslh, k`semdFree, k`word, k`softBlockCount, k`processCount, k.pList, k.semds, k.sLink
    ensures k.Core() && k.l == LeftSemaphore(old(k.l), p)
    ensures forall a ::
      Val(k.l.sem, a) == old(Val(k.l.sem, a)) +
        if Is(old(k.l), p, Blocked(a)) && !(k.dev <= a <= k.dev + 48) then -NeedOf(old(k.l.need), p) else 0
  {
    hide Rep;
    ghost var l0 := k.l;
    LeftWords(l0, p);
    CursemMeans(k.Snap(), p);
    if k.pcbs[p].cursem != NULL {
      ghost var a := l0.status[p].addr;
      GivenBackKeeps(l0, p, a);
      GiveBack(k, p, k.semds[k.pcbs[p].cursem].semAdd);
      ghost var l1 := k.l;
      var r := OutBlocked(k, p);
      ghost var l2 := k.l;
      Count(k, 0, -1);
      LeaveMeans(l0, p, a, l1, l2, k.l);
    }
  }

  lemma ReapMeans(l: Lists, p: int, l1: Lists, l2: Lists, l3: Lists)
    requires 0 <= p < |l.status| && (l.status[p].Blocked? || l.status[p] == Ready) && l1 == LeftSemaphore(l, p)
    requires l2 == l1.(processCount := l1.processCount + -1, softBlockCount := l1.softBlockCount + 0)
    requires |l2.status| > p && l3 == l2.(free := l2.free + [p], status := l2.status[p := Free])
    ensures l3 == AfterReap(l, p)
  {
  }

  lemma LeftStatus(l: Lists, p: int)
    requires 0 <= p < |l.status| && (l.status[p].Blocked? || l.status[p] == Ready)
    ensures var m := LeftSemaphore(l, p); |m.status| == |l.status| && (m.status[p] == Off || m.status[p] == Ready)
  {
  }

  lemma LeftReady(l: Lists, v: int)
    requires ReadyWhole(l) && 0 <= v < |l.status| && (l.status[v].Blocked? || l.status[v] == Ready)
    ensures var m := LeftSemaphore(l, v);
      |m.status| == |l.status| && ReadyWhole(m) && (Is(m, v, Off) || Is(m, v, Ready)) && m.ready == l.ready
  {
  }

  /** The repair: p is taken out of the ready queue as well, before it is freed. */
  method LeaveReady(k: Kernel, p: int)
    requires k.Core() && (k.repaired ==> ReadyWhole(k.l)) && 0 <= p < k.n && (Is(k.l, p, Off) || Is(k.l, p, Ready))
    modifies k`l, k`readyQueue, k.pList
    ensures k.Core() && |k.l.status| == |old(k.l.status)| && (Is(k.l, p, Off) || Is(k.l, p, Ready))
    ensures var l := old(k.l);
      k.l == if k.repaired then l.(ready := Without(l.ready, p), status := if p in l.ready then l.status[p := Off] else l.status) else l
  {
    hide Kernel.Core, ReadyWhole;
    if k.repaired {
      OutReady(k, p);
    }
  }

  lemma DeathMeans(l: Lists, p: int, repaired: bool, l1: Lists, l2: Lists, l3: Lists, l4: Lists)
    requires 0 <= p < |l.status| && (l.status[p].Blocked? || l.status[p] == Ready) && l1 == LeftSemaphore(l, p)
    requires l2 == l1.(processCount := l1.processCount + -1, softBlockCount := l1.softBlockCount + 0)
    requires |l2.status| > p && |l3.status| == |l2.status|
    requires l3 == if repaired
      then l2.(ready := Without(l2.ready, p), status := if p in l2.ready then l2.status[p := Off] else l2.status) else l2
    requires l4 == l3.(free := l3.free + [p], status := l3.status[p := Free])
    ensures l4 == AfterDeath(l, p, repaired)
  {
    ReapMeans(l, p, l1, l2, l2.(free := l2.free + [p], status := l2.status[p := Free]));
    assert l2.ready == l.ready && l2.status[p := Off][p := Free] == l2.status[p := Free];
  }

  lemma CountedReady(l: Lists, p: int, d: int)
    requires 0 <= p < |l.status| && (l.status[p] == Off || l.status[p] == Ready)
    ensures var m := l.(processCount := l.processCount + d, softBlockCount := l.softBlockCount + 0);
      (ReadyWhole(l) ==> ReadyWhole(m)) && (Is(m, p, Off) || Is(m, p, Ready))
  {
  }

  /** The body of terminate_children for p (source/syscall.c:150-164). */
  method ReapOne(k: Kernel, p: int)
    requires k.Core() && 0 <= p < k.n && (k.l.status[p].Blocked? || k.l.status[p] == Ready) && (k.repaired ==> ReadyWhole(k.l))
    modifies k`l, k`asl, k`sfree, k`owner, k`aslh, k`semdFree, k`word, k`softBlockCount, k`processCount, k`pcbFree, k`readyQueue,
      k.pList, k.semds, k.sLink
    ensures k.Core() && k.l == AfterDeath(old(k.l), p, k.repaired)
  {
    hide Kernel.Core, ReadyWhole, AfterDeath, LeftSemaphore;
    CoreSized(k);
    ghost var l0 := k.l;
    LeftStatus(l0, p);
    if k.repaired {
      LeftReady(l0, p);
    }
    LeaveSemaphore(k, p);
    ghost var l1 := k.l;
    CountedReady(l1, p, -1);
    Count(k, -1, 0);
    ghost var l2 := k.l;
    LeaveReady(k, p);
    ghost var l3 := k.l;
    FreePcb(k, p);
    DeathMeans(l0, p, k.repaired, l1, l2, l3, k.l);
  }

  // ----- the subtree --------------------------------------------------------------------

  function Weight(f: Forest): nat {
    match f
    case Nil => 0
    case Cons(_, kids, rest) => 1 + Weight(kids) + Weight(rest)
  }

  /** Dying or ready processes: what hangs below a victim. */
  ghost predicate Doomed(l: Lists, s: set<int>) {
    forall x :: x in s ==> 0 <= x < |l.status| && (l.status[x].Blocked? || l.status[x] == Ready)
  }

  /** The death of ks moves nobody else; in the repaired kernel it leaves a ready
      queue of ready processes. */
  lemma {:induction false} DeathsStatus(l: Lists, ks: seq<int>, repaired: bool)
    ensures var m := Deaths(l, ks, repaired);
      && |m.status| == |l.status| && (!repaired ==> m.ready == l.ready)
      && (repaired && ReadyWhole(l) && Distinct(l.ready) ==> ReadyWhole(m) && Distinct(m.ready))
      && forall x :: 0 <= x < |l.status| && x !in ks ==> m.status[x] == l.status[x]
    decreases |ks|
  {
    hide ReadyWhole, Distinct, AfterReap, AfterKill;
    if ks != [] {
      DeathsStatus(AfterDeath(l, ks[0], repaired), ks[1..], repaired);
      ReapStatus(l, ks[0]);
      KillStatus(l, ks[0]);
    }
  }

  lemma KillStatus(l: Lists, p: int)
    ensures var m := AfterKill(l, p);
      && |m.status| == |l.status|
      && (ReadyWhole(l) && Distinct(l.ready) ==> ReadyWhole(m) && Distinct(m.ready))
      && forall x :: 0 <= x < |l.status| && x != p ==> m.status[x] == l.status[x]
  {
    if Distinct(l.ready) {
      WithoutDistinct(l.ready, p);
    }
  }

  lemma ReapStatus(l: Lists, p: int)
    ensures var m := AfterReap(l, p);
      && |m.status| == |l.status| && m.ready == l.ready
      && forall x :: 0 <= x < |l.status| && x != p ==> m.status[x] == l.status[x]
  {
  }

  lemma StrippedStart(t: Tree, p: int)
    requires 0 <= p < |t.children|
    ensures Stripped(t, p, t.children[p], {}) == t
  {
    assert Stripped(t, p, t.children[p], {}).children == t.children;
    assert Stripped(t, p, t.children[p], {}).parent == t.parent;
  }

  /** One more child c, with the set s of its descendants, is stripped. */
  lemma StrippedNext(t: Tree, p: int, r: seq<int>, done: set<int>, c: int, s: set<int>, t1: Tree, t2: Tree)
    requires 0 <= p < |t.children| && 0 <= c < |t.children| == |t.parent| && c != p && p !in s
    requires t1 == Relinked(Stripped(t, p, [c] + r, done), p, r, c, NULL)
    requires t2 == Stripped(t1, c, [], s)
    ensures t2 == Stripped(t, p, r, done + {c} + s)
  {
    assert t2.children == Stripped(t, p, r, done + {c} + s).children;
    assert t2.parent == Stripped(t, p, r, done + {c} + s).parent;
  }

  /** The forest g of the children that p still has. */
  ghost predicate Hanging(t: Tree, p: int, g: Forest) {
    Spells(t.children, g) && Simple(g) && p !in Nodes(g) && 0 <= p < |t.children| && t.children[p] == Roots(g)
  }

  lemma HangingFirst(t: Tree, p: int, g: Forest)
    requires Hanging(t, p, g) && g.Cons?
    ensures t.children[p][0] == g.id && t.children[p][1..] == Roots(g.rest) && t.children[p] == [g.id] + Roots(g.rest)
    ensures 0 <= g.id < |t.children| && g.id != p
    ensures Hanging(Relinked(t, p, Roots(g.rest), g.id, NULL), g.id, g.kids)
  {
    var u := Relinked(t, p, Roots(g.rest), g.id, NULL);
    SpellsFrame(t.children, u.children, g.kids);
  }

  lemma HangingRest(t: Tree, p: int, g: Forest, u: Tree)
    requires Hanging(t, p, g) && g.Cons?
    requires u == Stripped(Relinked(t, p, Roots(g.rest), g.id, NULL), g.id, [], Nodes(g.kids))
    ensures Hanging(u, p, g.rest)
  {
    SpellsFrame(t.children, u.children, g.rest);
  }

  /** The loop of terminate_children: done are dead, g still hangs on p. */
  ghost predicate Halfway(
      l0: Lists, t0: Tree, p: int, f: Forest, l: Lists, t: Tree, done: seq<int>, g: Forest, repaired: bool)
  {
    && l == Deaths(l0, done, repaired) && done + Post(g) == Post(f) && Nodes(g) <= Nodes(f)
    && Hanging(t, p, g) && t == Stripped(t0, p, Roots(g), Nodes(f) - Nodes(g))
    && |t0.parent| == |t0.children|
  }

  lemma HalfwayStart(l: Lists, t: Tree, p: int, f: Forest, repaired: bool)
    requires Hanging(t, p, f) && |t.parent| == |t.children|
    ensures Halfway(l, t, p, f, l, t, [], f, repaired) && p !in Nodes(f)
  {
    StrippedStart(t, p);
    assert Nodes(f) - Nodes(f) == {};
  }

  lemma HalfwayNext(
      l0: Lists, t0: Tree, p: int, f: Forest, l: Lists, t: Tree, done: seq<int>, g: Forest, t1: Tree,
      l2: Lists, t2: Tree, repaired: bool)
    requires Halfway(l0, t0, p, f, l, t, done, g, repaired) && g.Cons? && Simple(f) && p !in Nodes(f)
    requires t1 == Relinked(t, p, Roots(g.rest), g.id, NULL)
    requires l2 == Deaths(l, Post(g.kids) + [g.id], repaired) && t2 == Stripped(t1, g.id, [], Nodes(g.kids))
    ensures Halfway(l0, t0, p, f, l2, t2, done + (Post(g.kids) + [g.id]), g.rest, repaired)
  {
    hide Deaths;
    HangingFirst(t, p, g);
    HangingRest(t, p, g, t2);
    DeathsConcat(l0, done, Post(g.kids) + [g.id], repaired);
    StrippedNext(t0, p, Roots(g.rest), Nodes(f) - Nodes(g), g.id, Nodes(g.kids), t1, t2);
    NodesNext(f, g);
    PostNext(done, g);
  }

  lemma NodesNext(f: Forest, g: Forest)
    requires g.Cons? && Simple(g) && Nodes(g) <= Nodes(f)
    ensures (Nodes(f) - Nodes(g)) + {g.id} + Nodes(g.kids) == Nodes(f) - Nodes(g.rest)
  {
  }

  lemma PostNext(done: seq<int>, g: Forest)
    requires g.Cons?
    ensures done + (Post(g.kids) + [g.id]) + Post(g.rest) == done + Post(g)
  {
  }

  lemma HalfwayDoomed(l0: Lists, t0: Tree, p: int, f: Forest, l: Lists, t: Tree, done: seq<int>, g: Forest, repaired: bool)
    requires Halfway(l0, t0, p, f, l, t, done, g, repaired) && Simple(f) && p !in Nodes(f)
    ensures Doomed(l0, Nodes(f)) ==> Doomed(l, Nodes(g))
    ensures |l.status| == |l0.status| && (repaired && ReadyWhole(l0) && Distinct(l0.ready) ==> ReadyWhole(l))
    ensures 0 <= p < |l.status| ==> l.status[p] == l0.status[p]
  {
    hide Deaths, ReadyWhole;
    DeathsStatus(l0, done, repaired);
    PostNodes(f);
    PostNodes(g);
    forall x | x in Nodes(g)
      ensures x !in done
    {
      assert x in Post(g);
      PartsDiffer(Post(f), |done|);
      assert Post(f)[|done|..] == Post(g) && Post(f)[..|done|] == done;
    }
    assert p !in done by {
      assert forall x :: x in done ==> x in done + Post(g);
    }
  }

  ghost predicate SameCursems(a: seq<Pcb>, b: seq<Pcb>) {
    |a| == |b| && forall x {:trigger b[x]} :: 0 <= x < |a| ==> a[x].cursem == b[x].cursem
  }

  lemma HalfwayEnd(l0: Lists, t0: Tree, p: int, f: Forest, l: Lists, t: Tree, done: seq<int>, repaired: bool)
    requires Halfway(l0, t0, p, f, l, t, done, Nil, repaired)
    ensures l == Deaths(l0, Post(f), repaired) && t == Stripped(t0, p, [], Nodes(f))
    ensures Deaths(l0, Post(f) + [p], repaired) == AfterDeath(l, p, repaired) && Deaths(l0, Post(f) + [], repaired) == l
  {
    hide Deaths, AfterDeath;
    assert done + [] == done;
    assert Nodes(f) - {} == Nodes(f);
    DeathsConcat(l0, Post(f), [p], repaired);
    DeathsConcat(l0, Post(f), [], repaired);
    DeathsOne(l, p, repaired);
  }

  lemma HalfwayParts(
      l0: Lists, t0: Tree, p: int, f: Forest, l: Lists, t: Tree, done: seq<int>, g: Forest, pConst: int, repaired: bool)
    requires Halfway(l0, t0, p, f, l, t, done, g, repaired) && g.Cons? && Doomed(l, Nodes(g)) && pConst !in Nodes(f)
    ensures Hanging(t, p, g) && Simple(g.kids) && pConst !in Nodes(g.kids) && g.id != pConst
    ensures Doomed(l, Nodes(g.kids)) && Doomed(l, {g.id})
    ensures Weight(g) > Weight(g.kids) && Weight(g) > Weight(g.rest)
  {
    assert g.id in Nodes(g) && Nodes(g.kids) <= Nodes(g);
  }

  lemma HalfwayHanging(l0: Lists, t0: Tree, p: int, f: Forest, l: Lists, t: Tree, done: seq<int>, g: Forest, repaired: bool)
    requires Halfway(l0, t0, p, f, l, t, done, g, repaired)
    ensures 0 <= p < |t.children| && (t.children[p] == [] <==> g == Nil)
  {
  }

  /** The body of the loop of terminate_children, less its recursive call. */
  method NextChild(k: Kernel, p: int, ghost g: Forest) returns (child: int)
    requires k.Core() && Hanging(k.t, p, g) && g.Cons? && 0 <= p < k.n
    modifies k`t, k.pSib, k.pcbs
    ensures k.Core() && child == g.id && 0 <= child < k.n && child != p
    ensures k.t == Relinked(old(k.t), p, Roots(g.rest), g.id, NULL) && Hanging(k.t, g.id, g.kids)
    ensures SameCursems(old(k.pcbs[..]), k.pcbs[..])
  {
    hide Rep;
    HangingFirst(k.t, p, g);
    child := RemoveChild(k, p);
  }

  /** terminate_children: everything below p dies, children before parents, and
      then p, unless it is pConst.  As written nothing is asked of the ready
      queue. */
  method TerminateChildren(k: Kernel, p: int, pConst: int, ghost f: Forest)
    requires k.Core() && 0 <= p < k.n && Simple(f) && Hanging(k.t, p, f) && pConst !in Nodes(f)
    requires Doomed(k.l, Nodes(f)) && (p != pConst ==> Doomed(k.l, {p})) && (k.repaired ==> ReadyWhole(k.l))
    modifies k`l, k`t, k`asl, k`sfree, k`owner, k`aslh, k`semdFree, k`word, k`softBlockCount, k`processCount, k`pcbFree,
      k`readyQueue, k.pList, k.pSib, k.pcbs, k.semds, k.sLink
    ensures k.Core()
    ensures k.l == Deaths(old(k.l), Post(f) + (if p != pConst then [p] else []), k.repaired)
    ensures k.t == Stripped(old(k.t), p, [], Nodes(f))
    ensures SameCursems(old(k.pcbs[..]), k.pcbs[..])
    decreases Weight(f)
  {
    hide Kernel.Core, Deaths, AfterDeath, Stripped, Hanging, Halfway, Nodes, Simple, Relinked, Post, Roots, ReadyWhole, Distinct;
    ghost var l0, t0, ps0 := k.l, k.t, k.pcbs[..];
    ghost var g, done := f, [];
    CoreSized(k);
    CoreReady(k);
    HalfwayStart(l0, t0, p, f, k.repaired);
    HalfwayHanging(l0, t0, p, f, k.l, k.t, done, g, k.repaired);
    var empty := EmptyChild(k, p);
    while !empty
      invariant k.Core() && Halfway(l0, t0, p, f, k.l, k.t, done, g, k.repaired) && (k.repaired ==> ReadyWhole(k.l))
      invariant empty <==> g == Nil
      invariant Weight(g) <= Weight(f) && Doomed(k.l, Nodes(g)) && SameCursems(ps0, k.pcbs[..])
      decreases Weight(g)
    {
      ghost var l, t := k.l, k.t;
      HalfwayParts(l0, t0, p, f, l, t, done, g, pConst, k.repaired);
      var child := NextChild(k, p, g);
      ghost var t1 := k.t;
      TerminateChildren(k, child, pConst, g.kids);
      HalfwayNext(l0, t0, p, f, l, t, done, g, t1, k.l, k.t, k.repaired);
      done := done + (Post(g.kids) + [g.id]);
      g := g.rest;
      HalfwayDoomed(l0, t0, p, f, k.l, k.t, done, g, k.repaired);
      HalfwayHanging(l0, t0, p, f, k.l, k.t, done, g, k.repaired);
      empty := EmptyChild(k, p);
    }
    HalfwayDoomed(l0, t0, p, f, k.l, k.t, done, Nil, k.repaired);
    HalfwayEnd(l0, t0, p, f, k.l, k.t, done, k.repaired);
    if p != NULL && p != pConst {
      ReapOne(k, p);
    }
  }

  // ----- the victim -------------------------------------------------------------------------

  /** The forest is the one the child lists spell. */
  ghost predicate TreeOk(t: Tree) {
    Spells(t.children, t.forest) && Simple(t.forest)
  }

  lemma BelowHangs(t: Tree, v: int)
    requires TreeOk(t) && v in Nodes(t.forest)
    ensures Hanging(t, v, Below(t.forest, v)) && Simple(Below(t.forest, v)) && v !in Nodes(Below(t.forest, v))
  {
    BelowFacts(t.children, t.forest, v);
  }

  lemma FelledMeans(t: Tree, n: nat, v: int, t1: Tree, t2: Tree)
    requires Linked(t, n) && TreeOk(t) && v in Nodes(t.forest) && 0 <= v < n
    requires t1 == Stripped(t, v, [], Nodes(Below(t.forest, v)))
    requires var d := t1.parent[v];
      t2 == if 0 <= d < n then Relinked(t1, d, Without(t1.children[d], v), v, NULL) else t1
    ensures t2.(forest := Prune(t.forest, v)) == Felled(t, v)
  {
    BelowFacts(t.children, t.forest, v);
    var s, u, d := Subtree(t.forest, v), Felled(t, v), t.parent[v];
    forall i | 0 <= i < n
      ensures t2.children[i] == u.children[i]
    {
      if i !in s && i != d {
        assert v !in t.children[i];
      }
    }
    assert t2.children == u.children;
    assert t2.parent == u.parent;
  }

  lemma FoundParts(m: Mem, v: int)
    requires Rep(m) && TreeOk(m.t) && v in Nodes(m.t.forest)
    ensures 0 <= v < |m.pl| && Sized(m) && Linked(m.t, |m.pl|) && |m.t.parent| == |m.t.children| == |m.pl|
    ensures v !in Nodes(Below(m.t.forest, v))
  {
    BelowFacts(m.t.children, m.t.forest, v);
  }

  lemma CoreFound(k: Kernel, v: int)
    requires k.Core() && TreeOk(k.t) && v in Nodes(k.t.forest)
    ensures 0 <= v < k.n && Linked(k.t, k.n) && v !in Nodes(Below(k.t.forest, v))
  {
    FoundParts(k.Snap(), v);
  }

  lemma CoreParent(k: Kernel, v: int)
    requires k.Core() && 0 <= v < k.n
    ensures |k.t.parent| == k.n && (k.t.parent[v] == NULL || 0 <= k.t.parent[v] < |k.t.children|)
  {
    BuryParent(k.Snap(), v);
  }

  /** The rest of the kill, once the descendants are dead and v is in no
      semaphore queue (source/syscall.c:92-95, 116-120). */
  method Bury(k: Kernel, v: int)
    requires k.Core() && ReadyWhole(k.l) && 0 <= v < k.n && (Is(k.l, v, Off) || Is(k.l, v, Ready))
    modifies k`l, k`t, k`processCount, k`softBlockCount, k`readyQueue, k`pcbFree, k.pList, k.pSib, k.pcbs
    ensures k.Core()
    ensures var l := old(k.l);
      k.l == l.(processCount := l.processCount + -1, softBlockCount := l.softBlockCount + 0,
                ready := Without(l.ready, v), free := l.free + [v],
                status := if v in l.ready then l.status[v := Off][v := Free] else l.status[v := Free])
    ensures var t, d := old(k.t), old(k.t.parent)[v];
      k.t == if d == NULL then t else Relinked(t, d, Without(t.children[d], v), v, NULL)
    ensures SameCursems(old(k.pcbs[..]), k.pcbs[..])
  {
    hide Kernel.Core;
    CoreSized(k);
    CoreParent(k, v);
    BuryStatus(k.l, v);
    Count(k, -1, 0);
    var r := OutChild(k, v);
    OutReady(k, v);
    FreePcb(k, v);
  }

  lemma BuryParent(m: Mem, v: int)
    requires Rep(m) && 0 <= v < |m.pl|
    ensures |m.t.parent| == |m.pl| && (m.t.parent[v] == NULL || 0 <= m.t.parent[v] < |m.t.children|)
  {
  }

  lemma BuryStatus(l: Lists, v: int)
    requires ReadyWhole(l) && 0 <= v < |l.status| && (Is(l, v, Off) || Is(l, v, Ready))
    ensures ReadyWhole(l.(processCount := l.processCount + -1, softBlockCount := l.softBlockCount + 0))
    ensures var st := if v in l.ready then l.status[v := Off] else l.status; st[v] != Free && !st[v].Blocked?
  {
  }

  lemma FoundDies(l: Lists, t: Tree, v: int, l1: Lists, repaired: bool)
    requires ReadyWhole(l) && Distinct(l.ready) && l1 == Deaths(l, Post(Below(t.forest, v)), repaired)
    requires v !in Nodes(Below(t.forest, v)) && 0 <= v < |l.status|
    requires !repaired ==> forall x :: x in Nodes(Below(t.forest, v)) ==> IsBlocked(l, x)
    ensures ReadyWhole(l1) && |l1.status| == |l.status| && l1.status[v] == l.status[v]
  {
    hide Deaths;
    DeathsStatus(l, Post(Below(t.forest, v)), repaired);
    PostNodes(Below(t.forest, v));
  }

  lemma BuryMeans(l: Lists, t: Tree, v: int, l1: Lists, l2: Lists, l5: Lists, repaired: bool)
    requires l1 == Deaths(l, Post(Below(t.forest, v)), repaired) && 0 <= v < |l1.status| && l1.status[v] != Free
    requires l2 == LeftSemaphore(l1, v) && |l2.status| == |l1.status|
    requires l5 == l2.(processCount := l2.processCount + -1, softBlockCount := l2.softBlockCount + 0,
                ready := Without(l2.ready, v), free := l2.free + [v],
                status := if v in l2.ready then l2.status[v := Off][v := Free] else l2.status[v := Free])
    ensures l5 == KillLists(l, t, v, repaired)
  {
    hide Kills, Reaps;
    assert l5 == AfterKill(l1, v);
    if repaired {
      KillsConcat(l, Post(Below(t.forest, v)), [v]);
      KillsOne(l1, v);
    }
  }

  /** The links do not depend on the forest that the lists spell. */
  lemma RepForest(m: Mem, f: Forest)
    requires Rep(m)
    ensures Rep(m.(t := m.t.(forest := f)))
  {
  }

  /** The tree is spelt as the forest f. */
  ghost method SetForest(k: Kernel, f: Forest)
    requires k.Core()
    modifies k`t
    ensures k.Core() && k.t == old(k.t).(forest := f)
  {
    hide Rep;
    RepForest(k.Snap(), f);
    k.t := k.t.(forest := f);
  }

  /** What lookfor_progeny does to the process it found (source/syscall.c:76-95). */
  method KillFound(k: Kernel, v: int)
    requires k.Core() && ReadyWhole(k.l) && TreeOk(k.t) && v in Nodes(k.t.forest)
    requires Doomed(k.l, {v}) && Doomed(k.l, Nodes(Below(k.t.forest, v)))
    requires !k.repaired ==> forall x :: x in Nodes(Below(k.t.forest, v)) ==> IsBlocked(k.l, x)
    modifies k`l, k`t, k`asl, k`sfree, k`owner, k`aslh, k`semdFree, k`word, k`softBlockCount, k`processCount, k`pcbFree,
      k`readyQueue, k.pList, k.pSib, k.pcbs, k.semds, k.sLink
    ensures k.Core()
    ensures k.l == KillLists(old(k.l), old(k.t), v, k.repaired) && k.t == Felled(old(k.t), v)
    ensures SameCursems(old(k.pcbs[..]), k.pcbs[..])
  {
    hide Kernel.Core, Deaths, Stripped, LeftSemaphore, KillLists, Felled, ReadyWhole, Hanging, TreeOk, Linked, Distinct;
    ghost var l, t := k.l, k.t;
    CoreSized(k);
    CoreReady(k);
    CoreFound(k, v);
    BelowHangs(t, v);
    TerminateChildren(k, v, v, Below(t.forest, v));
    ghost var l1, t1 := k.l, k.t;
    assert Post(Below(t.forest, v)) + [] == Post(Below(t.forest, v));
    FoundDies(l, t, v, l1, k.repaired);
    LeaveSemaphore(k, v);
    ghost var l2 := k.l;
    LeftReady(l1, v);
    CoreSized(k);
    CoreParent(k, v);
    Bury(k, v);
    BuryMeans(l, t, v, l1, l2, k.l, k.repaired);
    FelledMeans(t, k.n, v, t1, k.t);
    SetForest(k, Prune(t.forest, v));
  }

  // ----- the search ---------------------------------------------------------------------------

  /** Where lookfor_progeny looks, from x on, in this order. */
  function Searched(t: Tree, x: int): seq<int> {
    [x] + Pre(Below(t.forest, x))
  }

  /** Whom lookfor_progeny finds. */
  function Found(t: Tree, x: int, pid: int): int {
    FirstMatch(t, Searched(t, x), pid)
  }

  lemma {:induction false} MatchConcat(t: Tree, xs: seq<int>, ys: seq<int>, pid: int)
    requires NULL !in xs
    ensures FirstMatch(t, xs + ys, pid) == if FirstMatch(t, xs, pid) != NULL then FirstMatch(t, xs, pid) else FirstMatch(t, ys, pid)
  {
    if xs == [] {
      assert xs + ys == ys;
    } else {
      assert (xs + ys)[1..] == xs[1..] + ys;
      if PidAt(t, xs[0]) != pid {
        MatchConcat(t, xs[1..], ys, pid);
      }
    }
  }

  /** The victim can be killed: as written, nobody below it may be ready. */
  ghost predicate Killable(l: Lists, t: Tree, v: int, repaired: bool) {
    v != NULL ==>
      && Doomed(l, {v}) && Doomed(l, Nodes(Below(t.forest, v)))
      && (!repaired ==> forall y :: y in Nodes(Below(t.forest, v)) ==> IsBlocked(l, y))
  }

  /** The search of the children of x has come to the forest g, the i-th child. */
  ghost predicate Searching(t: Tree, x: int, pid: int, g: Forest, i: nat) {
    && TreeOk(t) && 0 <= x < |t.children| && i <= |t.children[x]|
    && Spells(t.children, g) && Simple(g) && Nodes(g) <= Nodes(t.forest) && Roots(g) == t.children[x][i..]
    && FirstMatch(t, Pre(g), pid) == Found(t, x, pid)
    && Weight(g) <= Weight(Below(t.forest, x))
  }

  lemma SearchStart(t: Tree, x: int, pid: int)
    requires TreeOk(t) && x in Nodes(t.forest) && PidAt(t, x) != pid
    ensures Searching(t, x, pid, Below(t.forest, x), 0)
  {
    var g := Below(t.forest, x);
    BelowFacts(t.children, t.forest, x);
    assert ([x] + Pre(g))[1..] == Pre(g);
    assert t.children[x][0..] == t.children[x];
  }

  lemma SearchChild(t: Tree, x: int, pid: int, g: Forest, i: nat)
    requires Searching(t, x, pid, g, i) && i < |t.children[x]|
    ensures g.Cons? && g.id == t.children[x][i] && g.id in Nodes(t.forest) && 0 <= g.id < |t.children|
    ensures Weight(Below(t.forest, g.id)) < Weight(Below(t.forest, x))
    ensures var v := Found(t, g.id, pid);
      if v != NULL then v == Found(t, x, pid) else Searching(t, x, pid, g.rest, i + 1)
  {
    assert t.children[x][i..] != [] && t.children[x][i..][0] == t.children[x][i];
    assert t.children[x][i + 1..] == t.children[x][i..][1..] == Roots(g.rest);
    var c := g.id;
    BelowFacts(t.children, t.forest, c);
    SpellsUnique(t.children, g.kids, Below(t.forest, c));
    SearchRange(t, g);
    assert Pre(g) == ([c] + Pre(g.kids)) + Pre(g.rest);
    MatchConcat(t, [c] + Pre(g.kids), Pre(g.rest), pid);
  }

  lemma SearchRange(t: Tree, g: Forest)
    requires g.Cons? && Spells(t.children, g)
    ensures NULL !in [g.id] + Pre(g.kids)
  {
    PreNodes(g.kids);
    forall y | y in Pre(g.kids)
      ensures y != NULL
    {
      SpellsRange(t.children, g.kids, y);
    }
  }

  lemma SearchEnd(t: Tree, x: int, pid: int, g: Forest, i: nat)
    requires Searching(t, x, pid, g, i) && i == |t.children[x]|
    ensures Found(t, x, pid) == NULL
  {
    assert t.children[x][i..] == [];
  }

  lemma MatchHere(t: Tree, x: int, pid: int)
    requires PidAt(t, x) == pid
    ensures Found(t, x, pid) == x
  {
  }

  lemma SibMeans(m: Mem, x: int)
    requires Rep(m) && 0 <= x < |m.pl|
    ensures Sized(m) && |m.t.children| == |m.pl| && IsRing(m.sib, m.ps[x].kids, m.t.children[x]) && m.ps[x].pid == PidAt(m.t, x)
    ensures m.t.children[x] != [] ==> 0 <= m.ps[x].kids < |m.sib| && m.sib[m.ps[x].kids] == m.t.children[x][0]
    ensures forall i {:trigger After(m.t.children[x], i)} :: 0 <= i < |m.t.children[x]| ==>
      0 <= m.t.children[x][i] < |m.sib| && m.sib[m.t.children[x][i]] == After(m.t.children[x], i)
  {
    var q := m.t.children[x];
    if q != [] {
      RingEnds(m.sib, m.ps[x].kids, q);
    }
  }

  /** What a search does: nothing, or the kill of the process it finds. */
  twostate predicate SearchDone(k: Kernel, v: int, found: bool)
    reads k, k.pList, k.pSib, k.pcbs, k.semds, k.sLink
  {
    && k.Core()
    && (found <==> v != NULL)
    && (v == NULL ==> k.Snap() == old(k.Snap()) && k.l == old(k.l) && k.t == old(k.t))
    && (v != NULL ==> k.l == KillLists(old(k.l), old(k.t), v, k.repaired) && k.t == Felled(old(k.t), v))
    && SameCursems(old(k.pcbs[..]), k.pcbs[..])
  }

  /** lookfor_progeny: the first process with that pid, in preorder from x on,
      is killed.  The loop over the children of x goes on once after the child
      it stood on was unlinked and freed, and stops. */
  method LookforProgeny(k: Kernel, x: int, pid: int) returns (found: bool)
    requires k.Core() && ReadyWhole(k.l) && TreeOk(k.t) && x in Nodes(k.t.forest) && 0 <= x < k.n
    requires Killable(k.l, k.t, Found(k.t, x, pid), k.repaired)
    modifies k`l, k`t, k`asl, k`sfree, k`owner, k`aslh, k`semdFree, k`word, k`softBlockCount, k`processCount, k`pcbFree,
      k`readyQueue, k.pList, k.pSib, k.pcbs, k.semds, k.sLink
    ensures SearchDone(k, old(Found(k.t, x, pid)), found)
    decreases Weight(Below(k.t.forest, x))
  {
    hide Rep, Searching, Found, KillLists, Felled;
    ghost var m := k.Snap();
    SibMeans(m, x);
    if k.pcbs[x].pid == pid {
      MatchHere(m.t, x, pid);
      found := true;
      KillFound(k, x);
    } else {
      found := false;
      SearchStart(m.t, x, pid);
      ghost var s, g, i := m.t.children[x], Below(m.t.forest, x), 0;
      if k.pcbs[x].kids != NULL {
        var scan, tmp := k.pSib[k.pcbs[x].kids], NULL;
        while tmp != k.pcbs[x].kids
          invariant 0 <= i <= |s| && (!found ==> 0 <= scan < k.n)
          invariant !found ==> k.Snap() == m && Searching(m.t, x, pid, g, i) && k.Core() && SameCursems(m.ps, k.pcbs[..])
          invariant !found ==> scan == (if i < |s| then s[i] else s[0]) && tmp == (if i == 0 then NULL else s[i - 1])
          invariant found ==> SearchDone(k, Found(m.t, x, pid), found)
          decreases if found then 0 else 1 + |s| - i
        {
          if !found {
            SearchChild(m.t, x, pid, g, i);
            found := LookforProgeny(k, scan, pid);
            assert m.sib[s[i]] == After(s, i);
          } else {
            break;
          }
          tmp := scan;
          scan := k.pSib[scan];
          i, g := i + 1, g.rest;
        }
      }
      if !found {
        SearchEnd(m.t, x, pid, g, i);
      }
    }
  }
}
