/** A kill takes exactly the subtree of its victim away. */
module KillLaws {
  import opened Clist
  import opened Forests
  import opened Lists
  import opened Semaphores
  import opened Processes
  import opened Model
  import opened ModelInvariant
  import opened Memory
  import opened ReadyDescendants

  lemma FelledElsewhere(t: Tree, v: int, x: int)
    requires 0 <= x < |t.children| == |t.parent| && x !in Subtree(t.forest, v)
    ensures var u := Felled(t, v);
      && |u.parent| == |u.children| == |t.parent|
      && u.parent[x] == t.parent[x] && u.children[x] == Without(t.children[x], v)
  {
  }

  lemma TreeSizes(k: KState, first: int)
    requires KInv(k, first)
    ensures |k.t.children| == |k.t.parent| == |k.l.status|
  {
  }

  /** Killing v frees its subtree, children before parents, and lowers both
      counters by what that takes; every queue and the ready queue lose the
      dead, in place, and every semaphore that is not a device's gets back what
      they waited for; everybody else keeps its place, its parent, and its
      children but for v.  In the repaired kernel this is so for every kill. */
  lemma {:induction false} KillIsExact(k: KState, v: int, first: int, a: int, x: int)
    requires KInv(k, first) && v in Live(k.l) && KillOk(k, v)
    requires 0 <= x < |k.l.status| && x !in Subtree(k.t.forest, v)
    ensures var m, ks := KillTree(k, v), Dead(k.t, v);
      && Members(ks) == Subtree(k.t.forest, v) && Distinct(ks)
      && m.l.free == k.l.free + ks && m.l.ready == Minus(k.l.ready, Subtree(k.t.forest, v))
      && m.l.processCount == k.l.processCount - |ks|
      && m.l.softBlockCount == k.l.softBlockCount - BlockedAmong(k.l, ks)
      && QueueAt(m.l.queue, a) == Minus(QueueAt(k.l.queue, a), Subtree(k.t.forest, v))
      && Val(m.l.sem, a) == Val(k.l.sem, a) + (if k.l.dev <= a <= k.l.dev + 48 then 0 else Refund(k.l, ks, a))
    ensures var m := KillTree(k, v);
      && |m.t.parent| == |m.t.children| == |k.t.parent| == |k.t.children| == |m.l.status| == |k.l.status|
      && m.l.status[x] == k.l.status[x] && m.t.parent[x] == k.t.parent[x] && m.t.children[x] == Without(k.t.children[x], v)
  {
    hide KInv, KillOk, Minus, Refund, KillLists, Felled, Dead, Inv, Kills;
    InvOf(k, first);
    TreeSizes(k, first);
    DeadAreSubtree(k, v, first);
    KillListsAre(k, v, first);
    KillsKeep(k.l, Dead(k.t, v));
    KillsExact(k.l, Dead(k.t, v), a);
    KillKeepsLists(k, v, first);
    FelledElsewhere(k.t, v, x);
  }

  /** The partition survives a kill iff no proper descendant of the victim is
      in the ready queue. */
  lemma {:induction false} KillKeepsIff(k: KState, v: int, first: int)
    requires KInv(k, first) && v in Live(k.l)
    ensures Inv(KillLists(k.l, k.t, v, false)) <==> NoReadyBelow(k, v)
  {
    if NoReadyBelow(k, v) {
      KillKeepsLists(k.(repaired := false), v, first);
    } else {
      var p :| p in Nodes(Below(k.t.forest, v)) && p in k.l.ready;
      BelowFacts(k.t.children, k.t.forest, v);
      PostNodes(Below(k.t.forest, v));
      ReadyGhost(k.l, Post(Below(k.t.forest, v)), v, p);
    }
  }

  /** A process that was freed while ready stays listed. */
  lemma ReadyGhost(l: Lists, ks: seq<int>, v: int, p: int)
    requires Inv(l) && p in ks && p in l.ready && p != v && 0 <= v < |l.status|
    ensures var m := AfterKill(Reaps(l, ks), v); p in m.ready && Is(m, p, Free) && !Inv(m)
  {
    hide Reaps;
    ReapsFree(l, ks);
    WithoutDistinct(l.ready, v);
    assert Is(l, p, Ready);
  }

  /** At the kill of v: the outProcQ that follows the deaths of its descendants
      ends iff none of them was ready, or the tail of the ready queue was one,
      or v is ready in front of all of them. */
  lemma {:induction false} KillEndsIff(k: KState, v: int, first: int, m: Mem)
    requires KInv(k, first) && v in Live(k.l) && Rep(m)
    requires var dead := Reaps(k.l, Post(Below(k.t.forest, v))); m.l.ready == dead.ready && m.l.status == dead.status
    ensures var q, s := k.l.ready, Nodes(Below(k.t.forest, v));
      ScanEnds(m, v) <==>
        || NoReadyBelow(k, v) || (q != [] && q[|q| - 1] in s)
        || exists i :: 0 <= i < |q| && q[i] == v && forall j :: 0 <= j <= i ==> q[j] !in s
  {
    hide Rep, KInv, Reaps, ScanEnds, Post, Nodes, Below;
    var ks, s := Post(Below(k.t.forest, v)), Nodes(Below(k.t.forest, v));
    InvOf(k, first);
    DeadAreSubtree(k, v, first);
    ReapsFree(k.l, ks);
    forall p | p in ks
      ensures p in s
    {
    }
    ReadyAfter(k.l, ks, s, m, v);
    ScanEndsIff(m, v);
  }

  /** Who is still ready after the deaths of ks. */
  lemma ReadyAfter(l: Lists, ks: seq<int>, s: set<int>, m: Mem, v: int)
    requires Placed(l) && Rep(m) && m.l.ready == l.ready && |m.l.status| == |l.status| && v in Live(l) && v !in ks
    requires forall x :: x in ks <==> x in s
    requires forall x :: 0 <= x < |l.status| ==> m.l.status[x] == if x in ks then Free else l.status[x]
    ensures !Is(m.l, v, Free) && forall p :: p in l.ready ==> Is(m.l, p, Ready) || Is(m.l, p, Free)
    ensures ReadyWhole(m.l) <==> forall p :: p in s ==> p !in l.ready
    ensures Is(m.l, m.readyQueue, Free) && l.ready != [] <==> l.ready != [] && l.ready[|l.ready| - 1] in s
    ensures Ahead(m.l, v) <==>
      exists i :: 0 <= i < |l.ready| && l.ready[i] == v && forall j :: 0 <= j <= i ==> l.ready[j] !in s
  {
    var q := l.ready;
    forall i | 0 <= i < |q|
      ensures Is(m.l, q[i], Ready) <==> q[i] !in s
    {
      assert q[i] in l.ready;
    }
    assert q != [] ==> q[|q| - 1] == m.readyQueue;
    assert q != [] ==> m.readyQueue in q;
  }
}
