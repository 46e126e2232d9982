/** Process queues and the pool of PCBs (source/pcb.c:11-125). */
module PcbQueues {
  import opened Clist
  import opened Forests
  import opened Lists
  import opened Processes
  import opened Model
  import opened Memory

  /** A queue of blocked processes is not touched by writes to other links. */
  lemma QueueRepFrame(pl: seq<int>, pl': seq<int>, sd: seq<Semd>, asl: seq<int>, owner: map<int, int>, l: Lists)
    requires QueueRep(pl, sd, asl, owner, l.queue) && QueuesPlaced(l) && |pl| == |pl'| == |l.status|
    requires forall x {:trigger pl'[x]} :: 0 <= x < |pl| && l.status[x].Blocked? ==> pl'[x] == pl[x]
    ensures QueueRep(pl', sd, asl, owner, l.queue)
  {
    forall d | d in asl
      ensures IsRing(pl', sd[d].procq, l.queue[sd[d].semAdd])
    {
      var q := l.queue[sd[d].semAdd];
      forall i | 0 <= i < |q|
        ensures pl'[q[i]] == After(q, i)
      {
        assert q[i] in l.queue[sd[d].semAdd] && pl[q[i]] == After(q, i);
      }
    }
  }

  lemma FreePlaced(l: Lists, p: int)
    requires QueuesPlaced(l) && 0 <= p < |l.status| && l.status[p] != Free && !l.status[p].Blocked?
    ensures QueuesPlaced(l.(free := l.free + [p], status := l.status[p := Free]))
  {
    DistinctConcat(l.free, [p]);
  }

  lemma FreeRep(m: Mem, p: int, m': Mem)
    requires Rep(m) && 0 <= p < |m.pl| && m.l.status[p] != Free && !m.l.status[p].Blocked?
    requires m' == m.(pl := m'.pl, pcbFree := m'.pcbFree, l := m.l.(free := m.l.free + [p], status := m.l.status[p := Free]))
    requires IsRing(m'.pl, m'.pcbFree, m.l.free + [p]) && SameOff(m.pl, m'.pl, m.l.free + [p])
    ensures Rep(m')
  {
    FreePlaced(m.l, p);
    QueueRepFrame(m.pl, m'.pl, m.sd, m.asl, m.owner, m.l);
  }

  /** freePcb: p, which is in no list that holds together, becomes free. */
  method FreePcb(k: Kernel, p: int)
    requires k.Core() && 0 <= p < k.n && k.l.status[p] != Free && !k.l.status[p].Blocked?
    modifies k`pcbFree, k`l, k.pList
    ensures k.Core()
    ensures k.l == old(k.l).(free := old(k.l.free) + [p], status := old(k.l.status)[p := Free])
  {
    ghost var m := k.Snap();
    assert p !in m.l.free;
    k.pcbFree := Enqueue(k.pList, k.pcbFree, p, m.l.free);
    k.l := m.l.(free := m.l.free + [p], status := m.l.status[p := Free]);
    FreeRep(m, p, k.Snap());
  }

  // ----- process queues (source/pcb.c:86-125) ------------------------------------

  /** insertProcQ */
  method InsertProcQ(pList: array<int>, q: int, p: int, ghost s: seq<int>) returns (q': int)
    requires IsRing(pList[..], q, s) && 0 <= p < pList.Length && p !in s
    modifies pList
    ensures IsRing(pList[..], q', s + [p]) && SameOff(old(pList[..]), pList[..], s + [p])
  {
    q' := Enqueue(pList, q, p, s);
  }

  /** removeProcQ: the head, or NULL. */
  method RemoveProcQ(pList: array<int>, q: int, ghost s: seq<int>) returns (q': int, p: int)
    requires IsRing(pList[..], q, s)
    modifies pList
    ensures p == Head(s) && IsRing(pList[..], q', Rest(s)) && SameOff(old(pList[..]), pList[..], Rest(s))
  {
    q' := q;
    if q == NULL {
      p := NULL;
    } else {
      assert pList[..][s[|s| - 1]] == After(s, |s| - 1);
      p := pList[q];
      q' := Dequeue(pList, q, s);
    }
  }

  /** outProcQ: p, or NULL if it is not queued. */
  method OutProcQ(pList: array<int>, q: int, p: int, ghost s: seq<int>) returns (q': int, r: int)
    requires IsRing(pList[..], q, s) && p != NULL
    modifies pList
    ensures r == if p in s then p else NULL
    ensures r == NULL ==> q' == q && pList[..] == old(pList[..])
    ensures IsRing(pList[..], q', Without(s, p)) && SameOff(old(pList[..]), pList[..], Without(s, p))
  {
    q', r := q, NULL;
    if q != NULL {
      assert pList[..][s[|s| - 1]] == After(s, |s| - 1);
      var scan, tmp := pList[q], NULL;
      ghost var i := 0;
      while tmp != q
        invariant 0 <= i <= |s| && scan == (if i < |s| then s[i] else s[0]) && tmp == (if i == 0 then NULL else s[i - 1])
        invariant p !in s[..i] && q' == q && r == NULL && pList[..] == old(pList[..])
        decreases |s| - i
      {
        if scan == p {
          q' := ForeachDelete(pList, q, scan, tmp, s, i);
          r := p;
          return;
        }
        assert pList[..][s[i]] == After(s, i);
        tmp := scan;
        scan := pList[scan];
        i := i + 1;
      }
    }
  }

  /** headProcQ: the head, or NULL. */
  method HeadProcQ(pList: array<int>, q: int, ghost s: seq<int>) returns (p: int)
    requires IsRing(pList[..], q, s)
    ensures p == Head(s)
  {
    if q == NULL {
      p := NULL;
    } else {
      assert pList[..][s[|s| - 1]] == After(s, |s| - 1);
      p := pList[q];
    }
  }

  // ----- the ready queue ------------------------------------------------------------

  lemma StillLinkedWhole(next: seq<int>, tail: int, l: Lists)
    requires StillLinked(next, tail, l.ready, l.status) && ReadyWhole(l)
    ensures IsRing(next, tail, l.ready)
  {
    forall i | 0 <= i < |l.ready|
      ensures next[l.ready[i]] == After(l.ready, i)
    {
      assert l.ready[i] in l.ready;
    }
  }

  /** Writes to links of processes that are neither free nor blocked leave the
      free list and the queues alone. */
  lemma OthersKept(m: Mem, pl': seq<int>, q: seq<int>)
    requires QueuesPlaced(m.l) && Sized(m) && IsRing(m.pl, m.pcbFree, m.l.free)
    requires QueueRep(m.pl, m.sd, m.asl, m.owner, m.l.queue) && SameOff(m.pl, pl', q)
    requires forall x :: x in q && 0 <= x < |m.pl| ==> m.l.status[x] == Ready || m.l.status[x] == Off
    ensures IsRing(pl', m.pcbFree, m.l.free) && QueueRep(pl', m.sd, m.asl, m.owner, m.l.queue)
  {
    QueueRepFrame(m.pl, pl', m.sd, m.asl, m.owner, m.l);
    forall i | 0 <= i < |m.l.free|
      ensures pl'[m.l.free[i]] == After(m.l.free, i)
    {
      assert m.l.free[i] in m.l.free && m.pl[m.l.free[i]] == After(m.l.free, i);
    }
  }

  lemma StatusMoved(l: Lists, q: seq<int>, p: int, st: Status, ps: seq<Pcb>, owner: map<int, int>)
    requires QueuesPlaced(l) && CursemRep(ps, owner, l.status) && (st == Off || st == Ready)
    requires 0 <= p < |l.status| ==> (l.status[p] == Off || l.status[p] == Ready) && ps[p].cursem == NULL
    ensures QueuesPlaced(l.(ready := q, status := Put(l.status, p, st)))
    ensures CursemRep(ps, owner, Put(l.status, p, st))
  {
  }

  lemma ReadyRep(m: Mem, q: seq<int>, p: int, st: Status, m': Mem)
    requires Rep(m) && (st == Off || st == Ready)
    requires 0 <= p < |m.pl| ==> (m.l.status[p] == Off || m.l.status[p] == Ready) && m.ps[p].cursem == NULL
    requires m' == m.(pl := m'.pl, readyQueue := m'.readyQueue, l := m.l.(ready := q, status := Put(m.l.status, p, st)))
    requires IsRing(m'.pl, m'.readyQueue, q) && SameOff(m.pl, m'.pl, q)
    requires forall x :: x in q && x != p ==> Is(m.l, x, Ready)
    ensures Rep(m')
  {
    OthersKept(m, m'.pl, q);
    StatusMoved(m.l, q, p, st, m.ps, m.owner);
  }

  lemma ReadyStart(m: Mem, p: int)
    requires Rep(m) && ReadyWhole(m.l)
    ensures Sized(m) && IsRing(m.pl, m.readyQueue, m.l.ready)
    ensures Is(m.l, p, Off) ==> p !in m.l.ready
  {
    StillLinkedWhole(m.pl, m.readyQueue, m.l);
  }

  /** insertProcQ(&readyqueue, p) */
  method InsertReady(k: Kernel, p: int)
    requires k.Core() && ReadyWhole(k.l) && Is(k.l, p, Off) && k.pcbs[p].cursem == NULL
    modifies k`readyQueue, k`l, k.pList
    ensures k.Core() && ReadyWhole(k.l)
    ensures k.l == AfterRequeue(old(k.l), p)
  {
    ghost var m := k.Snap();
    ReadyStart(m, p);
    k.readyQueue := InsertProcQ(k.pList, k.readyQueue, p, m.l.ready);
    k.l := AfterRequeue(m.l, p);
    ReadyRep(m, m.l.ready + [p], p, Ready, k.Snap());
  }

  lemma RemoveRep(m: Mem, p: int, m': Mem)
    requires Rep(m) && ReadyWhole(m.l) && p == Head(m.l.ready)
    requires m' == m.(pl := m'.pl, readyQueue := m'.readyQueue, l := AfterDispatch(m.l))
    requires IsRing(m'.pl, m'.readyQueue, Rest(m.l.ready)) && SameOff(m.pl, m'.pl, Rest(m.l.ready))
    ensures Rep(m') && ReadyWhole(m'.l)
    ensures p != NULL ==> Is(m'.l, p, Off) && m.ps[p].cursem == NULL
  {
    if m.l.ready == [] {
      ReadyRep(m, [], NULL, Off, m');
    } else {
      assert p in m.l.ready;
      TailMembers(m.l.ready);
      ReadyRep(m, m.l.ready[1..], p, Off, m');
    }
  }

  /** removeProcQ(&readyqueue) */
  method RemoveReady(k: Kernel) returns (p: int)
    requires k.Core() && ReadyWhole(k.l)
    modifies k`readyQueue, k`l, k.pList
    ensures k.Core() && ReadyWhole(k.l)
    ensures p == Head(old(k.l.ready)) && k.l == AfterDispatch(old(k.l))
    ensures p != NULL ==> Is(k.l, p, Off) && k.pcbs[p].cursem == NULL
  {
    ghost var m := k.Snap();
    ReadyStart(m, NULL);
    var q;
    q, p := RemoveProcQ(k.pList, k.readyQueue, m.l.ready);
    k.readyQueue := q;
    k.l := AfterDispatch(m.l);
    RemoveRep(m, p, k.Snap());
  }

  /** outProcQ(&readyqueue, p), where p may or may not be ready. */
  method OutReady(k: Kernel, p: int)
    requires k.Core() && ReadyWhole(k.l) && (Is(k.l, p, Off) || Is(k.l, p, Ready))
    modifies k`readyQueue, k`l, k.pList
    ensures k.Core() && ReadyWhole(k.l)
    ensures k.l == old(k.l).(ready := Without(old(k.l.ready), p),
                             status := if p in old(k.l.ready) then old(k.l.status)[p := Off] else old(k.l.status))
  {
    ghost var m := k.Snap();
    ReadyStart(m, p);
    WithoutDistinct(m.l.ready, p);
    var q, r := OutProcQ(k.pList, k.readyQueue, p, m.l.ready);
    k.readyQueue := q;
    k.l := m.l.(ready := Without(m.l.ready, p), status := if p in m.l.ready then m.l.status[p := Off] else m.l.status);
    ReadyRep(m, Without(m.l.ready, p), if p in m.l.ready then p else NULL, Off, k.Snap());
  }
}
