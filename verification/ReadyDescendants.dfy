/** What terminate_children does to the ready queue: it frees PCBs without
    looking whether they are in it (source/syscall.c:163-164). */
module ReadyDescendants {
  import opened Clist
  import opened Lists
  import opened Semaphores
  import opened Processes
  import opened Memory
  import opened PcbQueues

  /** The entry point still leads to a list of processes none of which is free. */
  ghost predicate ReadySurvives(m: Mem) {
    exists r :: IsRing(m.pl, m.readyQueue, r) && forall x :: x in r ==> x !in m.l.free
  }

  /** Some list survives iff nobody in the ready queue was freed. */
  lemma {:induction false} SurvivesIffWhole(m: Mem)
    requires Rep(m) && forall p :: p in m.l.ready ==> Is(m.l, p, Ready) || Is(m.l, p, Free)
    ensures ReadySurvives(m) <==> ReadyWhole(m.l)
  {
    if ReadyWhole(m.l) {
      StillLinkedWhole(m.pl, m.readyQueue, m.l);
      forall x | x in m.l.ready
        ensures x !in m.l.free
      {
      }
    }
    if ReadySurvives(m) && m.l.ready != [] {
      var r :| IsRing(m.pl, m.readyQueue, r) && forall x :: x in r ==> x !in m.l.free;
      SameList(m, r);
    }
  }

  /** A surviving list is the old one, member for member. */
  lemma {:induction false} SameList(m: Mem, r: seq<int>)
    requires Rep(m) && forall p :: p in m.l.ready ==> Is(m.l, p, Ready) || Is(m.l, p, Free)
    requires m.l.ready != [] && IsRing(m.pl, m.readyQueue, r) && forall x :: x in r ==> x !in m.l.free
    ensures ReadyWhole(m.l)
  {
    var q := m.l.ready;
    var n := |q| - 1;
    assert q[n] in q && r != [] && r[|r| - 1] == q[n] && r[|r| - 1] in r;
    assert m.pl[q[n]] == After(q, n) && m.pl[r[|r| - 1]] == After(r, |r| - 1);
    for i := 0 to |q|
      invariant i <= |r| && (i == |r| ==> i == |q|)
      invariant forall j :: 0 <= j < i ==> q[j] == r[j] && Is(m.l, q[j], Ready)
      invariant i < |q| ==> q[i] == r[i]
    {
      assert q[i] in q && r[i] in r;
      assert m.pl[q[i]] == After(q, i) && m.pl[r[i]] == After(r, i);
      assert IndexOf(q, q[n]) == n && IndexOf(q, q[i]) == i;
    }
    forall p | p in q
      ensures Is(m.l, p, Ready)
    {
      assert p == q[IndexOf(q, p)];
    }
  }

  /** After the death of ks the ready queue survives iff none of ks was in it. */
  lemma {:induction false} ReadyBrokenIff(l: Lists, ks: seq<int>, m: Mem)
    requires ReadyWhole(l) && Rep(m) && m.l == Reaps(l, ks)
    ensures ReadySurvives(m) <==> forall x :: x in ks ==> x !in l.ready
  {
    ReapsFree(l, ks);
    assert forall p :: p in l.ready ==> Is(m.l, p, if p in ks then Free else Ready);
    SurvivesIffWhole(m);
  }

  lemma {:induction false} ReapsFree(l: Lists, ks: seq<int>)
    ensures var m := Reaps(l, ks);
      && m.ready == l.ready && |m.status| == |l.status|
      && forall x :: 0 <= x < |l.status| ==> m.status[x] == if x in ks then Free else l.status[x]
    decreases |ks|
  {
    if ks != [] {
      var m := AfterReap(l, ks[0]);
      ReapsFree(m, ks[1..]);
      assert forall x :: 0 <= x < |l.status| ==> m.status[x] == if x == ks[0] then Free else l.status[x];
      assert ks == [ks[0]] + ks[1..];
    }
  }

  /** k steps along the links. */
  function Walk(next: seq<int>, x: int, k: nat): int {
    if k == 0 then x else
      var y := Walk(next, x, k - 1);
      if 0 <= y < |next| then next[y] else NULL
  }

  lemma {:induction false} WalkAdds(next: seq<int>, x: int, i: nat, j: nat)
    ensures Walk(next, Walk(next, x, i), j) == Walk(next, x, i + j)
  {
    if j > 0 {
      WalkAdds(next, x, i, j - 1);
    }
  }

  /** From a member of a ring the links lead to members only. */
  lemma {:induction false} WalkStays(next: seq<int>, tail: int, q: seq<int>, x: int, k: nat)
    requires IsRing(next, tail, q) && x in q
    ensures Walk(next, x, k) in q
  {
    if k > 0 {
      WalkStays(next, tail, q, x, k - 1);
      var i := IndexOf(q, Walk(next, x, k - 1));
      assert next[q[i]] == After(q, i);
    }
  }

  /** If a ready process was freed, but not the tail of the ready queue, a scan
      of the ready queue from its head never comes to the tail: the outProcQ
      of terminate_process does not end. */
  lemma {:induction false} ScanNeverEnds(m: Mem, k: nat)
    requires Rep(m) && m.l.ready != [] && forall p :: p in m.l.ready ==> Is(m.l, p, Ready) || Is(m.l, p, Free)
    requires Is(m.l, m.readyQueue, Ready) && !ReadyWhole(m.l)
    ensures Walk(m.pl, m.pl[m.readyQueue], k) != m.readyQueue
  {
    var q := m.l.ready;
    var n := |q| - 1;
    assert m.pl[q[n]] == After(q, n);
    var i := 0;
    while Is(m.l, q[i], Ready) && i < k && i < n
      invariant i <= n && i <= k && Walk(m.pl, q[0], i) == q[i]
      invariant forall j :: 0 <= j < i ==> Is(m.l, q[j], Ready)
      decreases n - i
    {
      assert m.pl[q[i]] == After(q, i);
      i := i + 1;
    }
    assert IndexOf(q, q[n]) == n && IndexOf(q, q[i]) == i;
    if !Is(m.l, q[i], Ready) {
      assert q[i] in q && q[i] in m.l.free;
      WalkStays(m.pl, m.pcbFree, m.l.free, q[i], k - i);
      WalkAdds(m.pl, q[0], i, k - i);
    } else if i == n {
      AllReady(m, i);
    }
  }

  lemma AllReady(m: Mem, n: nat)
    requires n == |m.l.ready| - 1 && forall j :: 0 <= j <= n ==> Is(m.l, m.l.ready[j], Ready)
    ensures ReadyWhole(m.l)
  {
    forall p | p in m.l.ready
      ensures Is(m.l, p, Ready)
    {
      assert p == m.l.ready[IndexOf(m.l.ready, p)];
    }
  }

  // ----- when the scan of the ready queue ends ------------------------------------

  /** Where a scan of the ready queue begins. */
  function Start(m: Mem): int {
    if 0 <= m.readyQueue < |m.pl| then m.pl[m.readyQueue] else NULL
  }

  /** The loop of outProcQ(&readyqueue, v) ends: it does not start, or it comes
      to v, or to the tail. */
  ghost predicate ScanEnds(m: Mem, v: int) {
    m.l.ready == [] || exists k: nat :: Walk(m.pl, Start(m), k) == m.readyQueue || Walk(m.pl, Start(m), k) == v
  }

  /** v is ready, and nobody in front of it was freed. */
  ghost predicate Ahead(l: Lists, v: int) {
    exists i :: 0 <= i < |l.ready| && l.ready[i] == v && forall j :: 0 <= j <= i ==> Is(l, l.ready[j], Ready)
  }

  lemma {:induction false} RingForward(next: seq<int>, tail: int, q: seq<int>, i: nat, j: nat)
    requires IsRing(next, tail, q) && i <= j < |q|
    ensures Walk(next, q[i], j - i) == q[j]
  {
    if i < j {
      RingForward(next, tail, q, i, j - 1);
      assert next[q[j - 1]] == After(q, j - 1);
    }
  }

  /** From any member of a ring the links lead to any other. */
  lemma {:induction false} RingReaches(next: seq<int>, tail: int, q: seq<int>, x: int, y: int) returns (k: nat)
    requires IsRing(next, tail, q) && x in q && y in q
    ensures Walk(next, x, k) == y
  {
    var i, j, n := IndexOf(q, x), IndexOf(q, y), |q| - 1;
    if i <= j {
      k := j - i;
      RingForward(next, tail, q, i, j);
    } else {
      k := (n - i) + 1 + j;
      RingForward(next, tail, q, i, n);
      RingForward(next, tail, q, 0, j);
      assert next[q[n]] == After(q, n);
      assert Walk(next, q[n], 1) == next[Walk(next, q[n], 0)] == q[0];
      WalkAdds(next, x, n - i, 1);
      WalkAdds(next, x, n - i + 1, j);
    }
  }

  /** Up to the first member that was freed the walk follows the ready queue. */
  lemma {:induction false} WalkFollows(m: Mem, i: nat)
    requires Rep(m) && i < |m.l.ready| && Is(m.l, m.readyQueue, Ready)
    requires forall j :: 0 <= j < i ==> Is(m.l, m.l.ready[j], Ready)
    ensures Start(m) == m.l.ready[0] && Walk(m.pl, Start(m), i) == m.l.ready[i]
  {
    var q := m.l.ready;
    var n := |q| - 1;
    assert m.pl[q[n]] == After(q, n);
    if i > 0 {
      WalkFollows(m, i - 1);
      assert m.pl[q[i - 1]] == After(q, i - 1);
    }
  }

  lemma WholeMeans(l: Lists)
    ensures ReadyWhole(l) <==> forall j {:trigger l.ready[j]} :: 0 <= j < |l.ready| ==> Is(l, l.ready[j], Ready)
  {
    if forall j {:trigger l.ready[j]} :: 0 <= j < |l.ready| ==> Is(l, l.ready[j], Ready) {
      forall p | p in l.ready
        ensures Is(l, p, Ready)
      {
        assert p == l.ready[IndexOf(l.ready, p)];
      }
    } else {
      var j :| 0 <= j < |l.ready| && !Is(l, l.ready[j], Ready);
      assert l.ready[j] in l.ready;
    }
  }

  /** The first member of the ready queue that was freed. */
  lemma FirstFreed(l: Lists) returns (f: nat)
    requires !ReadyWhole(l)
    ensures f < |l.ready| && !Is(l, l.ready[f], Ready) && forall j :: 0 <= j < f ==> Is(l, l.ready[j], Ready)
  {
    WholeMeans(l);
    f := 0;
    while f < |l.ready| && Is(l, l.ready[f], Ready)
      invariant f <= |l.ready| && forall j {:trigger l.ready[j]} :: 0 <= j < f ==> Is(l, l.ready[j], Ready)
    {
      f := f + 1;
    }
  }

  /** The loop of outProcQ ends iff nobody in the ready queue was freed, or its
      tail was, or the process it looks for stands before all who were. */
  lemma {:induction false} ScanEndsIff(m: Mem, v: int)
    requires Rep(m) && !Is(m.l, v, Free)
    requires forall p :: p in m.l.ready ==> Is(m.l, p, Ready) || Is(m.l, p, Free)
    ensures ScanEnds(m, v) <==> ReadyWhole(m.l) || Is(m.l, m.readyQueue, Free) || Ahead(m.l, v)
  {
    var q := m.l.ready;
    if q != [] {
      assert q[|q| - 1] == m.readyQueue && m.readyQueue in q;
      if Is(m.l, m.readyQueue, Free) {
        var k := TailFreed(m);
        assert Walk(m.pl, Start(m), k) == m.readyQueue;
      } else if ReadyWhole(m.l) {
        WholeMeans(m.l);
        WalkFollows(m, |q| - 1);
        assert Walk(m.pl, Start(m), |q| - 1) == m.readyQueue;
      } else {
        ScanHangs(m, v);
      }
    }
  }

  /** The link of a freed tail leads into the free list, and round to it. */
  lemma TailFreed(m: Mem) returns (k: nat)
    requires Rep(m) && Is(m.l, m.readyQueue, Free)
    ensures Walk(m.pl, Start(m), k) == m.readyQueue
  {
    var t := m.readyQueue;
    assert t in m.l.free;
    var i := IndexOf(m.l.free, t);
    assert m.pl[m.l.free[i]] == After(m.l.free, i) && After(m.l.free, i) in m.l.free;
    k := RingReaches(m.pl, m.pcbFree, m.l.free, m.pl[t], t);
  }

  lemma {:induction false} ScanHangs(m: Mem, v: int)
    requires Rep(m) && !Is(m.l, v, Free) && Is(m.l, m.readyQueue, Ready) && !ReadyWhole(m.l)
    requires forall p :: p in m.l.ready ==> Is(m.l, p, Ready) || Is(m.l, p, Free)
    ensures ScanEnds(m, v) <==> Ahead(m.l, v)
  {
    var q := m.l.ready;
    var f := FirstFreed(m.l);
    assert q[f] in q && q[f] in m.l.free && q[|q| - 1] == m.readyQueue;
    if Ahead(m.l, v) {
      var i :| 0 <= i < |q| && q[i] == v && forall j :: 0 <= j <= i ==> Is(m.l, q[j], Ready);
      WalkFollows(m, i);
      assert Walk(m.pl, Start(m), i) == v;
    }
    forall k: nat | Walk(m.pl, Start(m), k) == m.readyQueue || Walk(m.pl, Start(m), k) == v
      ensures Ahead(m.l, v)
    {
      if k < f {
        WalkFollows(m, k);
        OnlyOnce(q, k, |q| - 1);
        assert q[k] == v;
      } else {
        WalkFollows(m, f);
        WalkStays(m.pl, m.pcbFree, m.l.free, q[f], k - f);
        WalkAdds(m.pl, Start(m), f, k - f);
        assert false;
      }
    }
  }

  lemma OnlyOnce(q: seq<int>, i: nat, j: nat)
    requires i < |q| && j < |q| && (Distinct(q) ==> i != j)
    ensures Distinct(q) ==> q[i] != q[j]
  {
    if Distinct(q) {
      assert IndexOf(q, q[i]) == i && IndexOf(q, q[j]) == j;
    }
  }

  /** The links come round to the tail iff nobody in the ready queue was freed,
      or the tail was. */
  lemma {:induction false} TailReachedIff(m: Mem)
    requires Rep(m) && m.l.ready != []
    requires forall p :: p in m.l.ready ==> Is(m.l, p, Ready) || Is(m.l, p, Free)
    ensures (exists k: nat :: Walk(m.pl, Start(m), k) == m.readyQueue) <==> ReadyWhole(m.l) || Is(m.l, m.readyQueue, Free)
  {
    var q := m.l.ready;
    assert q[|q| - 1] == m.readyQueue;
    if Is(m.l, m.readyQueue, Free) {
      var k := TailFreed(m);
    } else if ReadyWhole(m.l) {
      WholeMeans(m.l);
      WalkFollows(m, |q| - 1);
    } else {
      ScanEndsIff(m, NULL);
    }
  }

  // ----- the repair --------------------------------------------------------------

  /** Were terminate_children to take each process out of the ready queue as
      well, before source/syscall.c:164, it would need no precondition: whoever
      dies, the partition is kept, and the ready queue loses exactly the dead,
      in place. */
  lemma {:induction false} RepairKeeps(l: Lists, ks: seq<int>)
    requires Inv(l) && Distinct(ks) && forall p :: p in ks ==> p in Live(l)
    ensures Inv(Kills(l, ks)) && Kills(l, ks).ready == Minus(l.ready, Members(ks))
  {
    KillsKeep(l, ks);
  }

  /** It would change nothing where the code is right. */
  lemma {:induction false} RepairIsConservative(l: Lists, ks: seq<int>)
    requires forall p :: p in ks ==> p !in l.ready
    ensures Kills(l, ks) == Reaps(l, ks)
  {
    KillsAreReaps(l, ks);
  }
}
